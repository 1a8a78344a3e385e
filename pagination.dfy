/**
 * The pagination calculator `paginate` of the trivia backend: an ordered
 * selection and a requested page number give one page of formatted items,
 * the total page count and the neighbouring page numbers.
 */
module Pagination {
  import opened Wrappers

  /** QUESTIONS_PER_PAGE: the number of items on one page. */
  const QuestionsPerPage: int := 10

  function Min(a: int, b: int): int { if a <= b then a else b }
  function Max(a: int, b: int): int { if a >= b then a else b }

  /**
   * `total_pages`: Python's `round(n / 10)`, the integer nearest to n/10,
   * a tie (n ending in 5) going to the even neighbour. It is computed in
   * integers; the page count is not a ceiling.
   */
  function TotalPages(n: nat): (t: nat)
    ensures 10 * t - 5 <= n <= 10 * t + 5
    ensures (n == 10 * t - 5 || n == 10 * t + 5) ==> t % 2 == 0
  {
    var q, r := n / 10, n % 10;
    if r > 5 || (r == 5 && q % 2 == 1) then q + 1 else q
  }

  /** Only one page count is the nearest integer to n/10 with ties to even. */
  lemma TotalPagesIsRoundHalfEven(n: nat, t: nat)
    requires 10 * t - 5 <= n <= 10 * t + 5
    requires (n == 10 * t - 5 || n == 10 * t + 5) ==> t % 2 == 0
    ensures t == TotalPages(n)
  {
    var u := TotalPages(n);
    assert -10 <= 10 * t - 10 * u <= 10;
  }

  /** Rounding lies between the floor and the ceiling of n/10. */
  lemma TotalPagesBetweenFloorAndCeiling(n: nat)
    ensures n / 10 <= TotalPages(n) <= (n + 9) / 10
  {
  }

  /** The values the rounding gives where it differs from a ceiling or a naive round-half-up. */
  lemma TotalPagesExamples()
    ensures TotalPages(0) == 0 && TotalPages(5) == 0 && TotalPages(14) == 1
    ensures TotalPages(15) == 2 && TotalPages(19) == 2 && TotalPages(25) == 2
    ensures TotalPages(14) < (14 + 9) / 10
  {
  }

  /**
   * Python's normalisation of one slice bound against a length n: a negative
   * bound counts from the end, and the result is clamped to 0..n.
   */
  function SliceBound(i: int, n: nat): (b: nat)
    ensures b <= n
  {
    if i < 0 then (if i + n < 0 then 0 else i + n)
    else if i > n then n
    else i
  }

  /** Python's `s[start:end]` with step 1: never an error, empty when the bounds cross. */
  function PySlice<T>(s: seq<T>, start: int, end: int): (r: seq<T>)
    ensures |r| <= |s|
  {
    var lo, hi := SliceBound(start, |s|), SliceBound(end, |s|);
    if lo < hi then s[lo..hi] else []
  }

  /** `[item.format() for item in selection]`, with `format` left abstract. */
  function Formatted<T, U>(selection: seq<T>, format: T -> U): seq<U>
  {
    seq(|selection|, k requires 0 <= k < |selection| => format(selection[k]))
  }

  /**
   * Formatting commutes with slicing: formatting every item and then taking
   * a slice gives the same page as formatting only the sliced items.
   */
  lemma FormatThenSlice<T, U>(selection: seq<T>, format: T -> U, lo: int, hi: int)
    requires 0 <= lo <= hi <= |selection|
    ensures Formatted(selection, format)[lo..hi] == Formatted(selection[lo..hi], format)
  {
    var left, right := Formatted(selection, format)[lo..hi], Formatted(selection[lo..hi], format);
    assert |left| == |right|;
    forall k | 0 <= k < |left| ensures left[k] == right[k] {
      assert selection[lo..hi][k] == selection[lo + k];
    }
  }

  /** The five values `paginate` returns. */
  datatype Page<U> = Page(
    items: seq<U>,
    totalPages: nat,
    currentPage: int,
    nextPage: Option<int>,
    previousPage: Option<int>)

  /**
   * `paginate(request, selection)` with the page argument already coerced
   * to an integer (1 when absent or unparsable).
   */
  function Paginate<T, U>(selection: seq<T>, page: int, format: T -> U): (p: Page<U>)
    ensures p.totalPages == TotalPages(|selection|)
    ensures p.currentPage == page
    ensures p.nextPage.Some? <==> page < p.totalPages
    ensures p.nextPage.Some? ==> p.nextPage.value == page + 1
    ensures p.previousPage.Some? <==> page > 1
    ensures p.previousPage.Some? ==> p.previousPage.value == page - 1
    ensures |p.items| <= QuestionsPerPage
    ensures page >= 1 ==>
      |p.items| == Max(0, Min(QuestionsPerPage, |selection| - QuestionsPerPage * (page - 1)))
    ensures page >= 1 ==> forall k :: 0 <= k < |p.items| ==>
      p.items[k] == format(selection[QuestionsPerPage * (page - 1) + k])
  {
    var start := (page - 1) * QuestionsPerPage;
    var end := start + QuestionsPerPage;
    var total := TotalPages(|selection|);
    Page(
      PySlice(Formatted(selection, format), start, end),
      total,
      page,
      if page < total then Some(page + 1) else None,
      if page > 1 then Some(page - 1) else None)
  }

  /** For a page of 1 or more, the slice is empty exactly when its offset reaches the end. */
  lemma PageEmptyPastEnd<T, U>(selection: seq<T>, page: int, format: T -> U)
    requires page >= 1
    ensures Paginate(selection, page, format).items == [] <==>
      QuestionsPerPage * (page - 1) >= |selection|
  {
    var p := Paginate(selection, page, format);
    if QuestionsPerPage * (page - 1) < |selection| {
      assert |p.items| > 0;
    }
  }

  /** Page 0 is always empty: its slice ends at index 0. */
  lemma PageZeroIsEmpty<T, U>(selection: seq<T>, format: T -> U)
    ensures Paginate(selection, 0, format).items == []
  {
  }

  /**
   * A negative page is not rejected: Python reads its negative slice bounds
   * from the end of the list, clamping at the front. Page -1 of 20 or more
   * items is the block of ten that ends ten items before the end; page -1 of
   * 15 items is the first five; page -1 of 10 or fewer items is empty.
   */
  lemma NegativePageCountsFromEnd<T, U>(selection: seq<T>, page: int, format: T -> U)
    requires page <= -1
    ensures Paginate(selection, page, format).items ==
      Formatted(selection, format)[Max(0, |selection| + QuestionsPerPage * (page - 1)) .. Max(0, |selection| + QuestionsPerPage * page)]
  {
  }

  /** The three negative-page cases spelled out for page -1. */
  lemma NegativePageExamples<T, U>(selection: seq<T>, format: T -> U)
    ensures |selection| >= 20 ==>
      Paginate(selection, -1, format).items == Formatted(selection, format)[|selection| - 20 .. |selection| - 10]
    ensures |selection| == 15 ==> Paginate(selection, -1, format).items == Formatted(selection, format)[..5]
    ensures |selection| <= 10 ==> Paginate(selection, -1, format).items == []
  {
    NegativePageCountsFromEnd(selection, -1, format);
  }

  /** The items of pages 1..k, in order. */
  function Pages<T, U>(selection: seq<T>, k: nat, format: T -> U): seq<U>
  {
    if k == 0 then [] else Pages(selection, k - 1, format) + Paginate(selection, k, format).items
  }

  /**
   * Pages 1..k together are the first 10k formatted items (or all of them):
   * every item sits on exactly one page, in order, with no gap or repeat.
   */
  lemma {:induction false} PagesArePrefix<T, U>(selection: seq<T>, k: nat, format: T -> U)
    ensures Pages(selection, k, format) ==
      Formatted(selection, format)[..Min(|selection|, QuestionsPerPage * k)]
  {
    var all := Formatted(selection, format);
    if k > 0 {
      PagesArePrefix(selection, k - 1, format);
      var before := Min(|selection|, QuestionsPerPage * (k - 1));
      var after := Min(|selection|, QuestionsPerPage * k);
      var page := Paginate(selection, k, format).items;
      assert |page| == after - before;
      assert page == all[before..after];
      assert all[..before] + all[before..after] == all[..after];
    }
  }

  /**
   * Because the page count is rounded rather than a ceiling, when the count
   * ends in 1 to 4 the pages 1..total_pages (the ones next_page links reach)
   * miss the last items.
   */
  lemma RoundingStrandsTail<T, U>(selection: seq<T>, format: T -> U)
    requires 1 <= |selection| % 10 <= 4
    ensures |Pages(selection, TotalPages(|selection|), format)| < |selection|
    ensures Paginate(selection, TotalPages(|selection|), format).nextPage == None
  {
    PagesArePrefix(selection, TotalPages(|selection|), format);
  }
}
