/**
 * The outcome logic of the request handlers: which status code and which
 * kind of JSON body each request gets, from abstract inputs that stand for
 * the parsed request and the replies of the store.
 */
module Handlers {
  import opened Wrappers
  import opened Pagination
  import opened Validation
  import opened Categories

  /** The three HTTP errors the application registers JSON handlers for. */
  datatype HttpError = BadRequest | NotFound | Unprocessable

  function StatusCode(e: HttpError): int
  {
    match e
    case BadRequest => 400
    case NotFound => 404
    case Unprocessable => 422
  }

  function Message(e: HttpError): string
  {
    match e
    case BadRequest => "bad request"
    case NotFound => "resource not found"
    case Unprocessable => "unprocessable"
  }

  /** A scalar JSON value. */
  datatype JsonValue = JNull | JBool(b: bool) | JInt(i: int) | JString(s: string)

  /** A formatted question, the JSON object `Question.format()` returns. */
  type QuestionJson = map<string, JsonValue>

  /** The JSON bodies the handlers produce. */
  datatype Body =
    | QuestionList(
        questions: seq<QuestionJson>,
        categories: Option<map<int, string>>,  // present in GET /questions only
        totalQuestions: nat,
        totalPages: nat,
        currentPage: int,
        previousPage: Option<int>,
        nextPage: Option<int>)
    | Created(created: int)
    | Deleted(questionId: int)
    | ErrorEnvelope(success: bool, error: int, message: string)
    | InternalError  // Flask's own page for an exception no handler catches

  datatype Response = Response(status: int, body: Body)

  /** The error handlers `bad_request`, `not_found` and `unprocessable`, reached through `abort(code)`. */
  function HandleError(e: HttpError): (r: Response)
    ensures r.status == StatusCode(e)
    ensures r.body.ErrorEnvelope? && !r.body.success
    ensures r.body.error == r.status
    ensures r.body.message == Message(e)
  {
    Response(StatusCode(e), ErrorEnvelope(false, StatusCode(e), Message(e)))
  }

  /** Each error has its own status code and its own message, and the body repeats the code. */
  lemma ErrorEnvelopesDistinct(e1: HttpError, e2: HttpError)
    requires e1 != e2
    ensures HandleError(e1).status != HandleError(e2).status
    ensures HandleError(e1).body.message != HandleError(e2).body.message
  {
  }

  /** The envelopes exactly: a missing resource is reported as 404 "resource not found". */
  lemma ErrorEnvelopeValues()
    ensures HandleError(BadRequest) == Response(400, ErrorEnvelope(false, 400, "bad request"))
    ensures HandleError(NotFound) == Response(404, ErrorEnvelope(false, 404, "resource not found"))
    ensures HandleError(Unprocessable) == Response(422, ErrorEnvelope(false, 422, "unprocessable"))
  {
  }

  /** What one call into the store does: return a value, or raise. */
  datatype StoreCall<R> = Returns(value: R) | Raises

  /** A page of questions as a JSON body; `totalQuestions` is the length of the page itself. */
  function ListBody(page: Page<QuestionJson>, categories: Option<map<int, string>>): Body
  {
    QuestionList(page.items, categories, |page.items|, page.totalPages,
                 page.currentPage, page.previousPage, page.nextPage)
  }

  /**
   * GET /questions (`retrieve_questions`): one page of the id-ordered
   * questions, with the category dictionary. It has no error path of its own.
   */
  function RetrieveQuestions<T>(selection: seq<T>, page: int, format: T -> QuestionJson, categories: seq<Category>): (r: Response)
    ensures r.status == 200 && r.body.QuestionList?
    ensures r.body.totalQuestions == |r.body.questions| <= QuestionsPerPage
    ensures r.body.questions == Paginate(selection, page, format).items
    ensures r.body.totalPages == TotalPages(|selection|) && r.body.currentPage == page
    ensures r.body.previousPage == Paginate(selection, page, format).previousPage
    ensures r.body.nextPage == Paginate(selection, page, format).nextPage
    ensures r.body.categories == Some(CategoryMap(categories))
  {
    Response(200, ListBody(Paginate(selection, page, format), Some(CategoryMap(categories))))
  }

  /** The fields of the POST /questions JSON object that decide the outcome. */
  datatype Payload = Payload(difficulty: Field, category: Field, searchTerm: bool)

  /** The body passed validation. */
  predicate Valid(p: Payload) { Validate(p.difficulty, p.category) == Ok }

  /**
   * POST /questions (`create_question`). `body` is `None` when
   * `request.get_json()` raises or gives something other than a JSON object
   * (whose missing `get` raises too). `questions` is the store's reply to the
   * id-ordered search query; the rows it keeps are those `matches` accepts,
   * the title match left abstract. `insert` is the store's reply to the
   * insert (the new row's id). Validation comes first, so `searchTerm` is
   * only looked at in a valid body.
   */
  function CreateQuestion<T>(body: Option<Payload>, page: int, format: T -> QuestionJson,
                             questions: StoreCall<seq<T>>, matches: T -> bool,
                             insert: StoreCall<int>): (r: Response)
    ensures r.status in {200, 400, 422}
    ensures r.status == 400 <==> body.Some? && Validate(body.value.difficulty, body.value.category) == ValidationErr
    ensures r.status == 422 <==>
      body.None? || Validate(body.value.difficulty, body.value.category) == OtherErr
      || (Valid(body.value) && body.value.searchTerm && questions.Raises?)
      || (Valid(body.value) && !body.value.searchTerm && insert.Raises?)
    ensures r.status != 200 ==> r == HandleError(if r.status == 400 then BadRequest else Unprocessable)
    ensures r.body.Created? <==> body.Some? && Valid(body.value) && !body.value.searchTerm && insert.Returns?
    ensures r.body.Created? ==> r.status == 200 && r.body.created == insert.value
    ensures r.body.QuestionList? <==> body.Some? && Valid(body.value) && body.value.searchTerm && questions.Returns?
    ensures r.body.QuestionList? ==>
      var found := Filter(questions.value, matches);
      && r.status == 200
      && r.body.questions == Paginate(found, page, format).items
      && r.body.totalQuestions == |r.body.questions| <= QuestionsPerPage
      && r.body.totalPages == TotalPages(|found|)
      && r.body.currentPage == page
      && r.body.previousPage == Paginate(found, page, format).previousPage
      && r.body.nextPage == Paginate(found, page, format).nextPage
      && r.body.categories == None
  {
    match body
    case None => HandleError(Unprocessable)
    case Some(p) =>
      match Validate(p.difficulty, p.category)
      case ValidationErr => HandleError(BadRequest)
      case OtherErr => HandleError(Unprocessable)
      case Ok =>
        if p.searchTerm then
          match questions
          case Raises => HandleError(Unprocessable)
          case Returns(all) => Response(200, ListBody(Paginate(Filter(all, matches), page, format), None))
        else
          match insert
          case Raises => HandleError(Unprocessable)
          case Returns(id) => Response(200, Created(id))
  }

  /**
   * A body holding only a search term fails validation and is answered
   * 400, whatever the store would reply: the search is never reached.
   */
  lemma SearchOnlyBodyIsBadRequest<T>(page: int, format: T -> QuestionJson, questions: StoreCall<seq<T>>,
                                      matches: T -> bool, insert: StoreCall<int>)
    ensures CreateQuestion(Some(Payload(Missing, Missing, true)), page, format, questions, matches, insert)
      == HandleError(BadRequest)
  {
  }

  /** A valid body with a truthy search term searches and never inserts, even when the insert would succeed. */
  lemma SearchTakesPrecedenceOverInsert<T>(p: Payload, page: int, format: T -> QuestionJson,
                                           all: seq<T>, matches: T -> bool, insert: StoreCall<int>)
    requires Valid(p) && p.searchTerm
    ensures CreateQuestion(Some(p), page, format, Returns(all), matches, insert).body.QuestionList?
    ensures !CreateQuestion(Some(p), page, format, Returns(all), matches, insert).body.Created?
  {
  }

  /**
   * The search page of an id-ordered selection holds, in ascending id order,
   * the formatted matching questions at the page's offset of the matches.
   */
  lemma SearchPageHoldsMatchesInOrder<T>(p: Payload, page: int, format: T -> QuestionJson, all: seq<T>,
                                         matches: T -> bool, key: T -> int, insert: StoreCall<int>)
    requires Valid(p) && p.searchTerm && page >= 1
    requires Ascending(all, key)
    ensures Ascending(Filter(all, matches), key)
    ensures forall k :: 0 <= k < |CreateQuestion(Some(p), page, format, Returns(all), matches, insert).body.questions| ==>
      && QuestionsPerPage * (page - 1) + k < |Filter(all, matches)|
      && Filter(all, matches)[QuestionsPerPage * (page - 1) + k] in all
      && matches(Filter(all, matches)[QuestionsPerPage * (page - 1) + k])
      && CreateQuestion(Some(p), page, format, Returns(all), matches, insert).body.questions[k]
         == format(Filter(all, matches)[QuestionsPerPage * (page - 1) + k])
  {
    FilterKeepsOrder(all, matches, key);
    var found := Filter(all, matches);
    var r := CreateQuestion(Some(p), page, format, Returns(all), matches, insert);
    assert r.body.questions == Paginate(found, page, format).items;
    forall k | 0 <= k < |r.body.questions|
      ensures QuestionsPerPage * (page - 1) + k < |found|
      ensures found[QuestionsPerPage * (page - 1) + k] in all && matches(found[QuestionsPerPage * (page - 1) + k])
      ensures r.body.questions[k] == format(found[QuestionsPerPage * (page - 1) + k])
    {
      var i := QuestionsPerPage * (page - 1) + k;
      assert i < |found|;
      assert found[i] in all && matches(found[i]);
    }
  }

  /** The result of `Question.query.filter(...).one_or_none()`, which runs outside the `try`. */
  datatype Lookup = Found | Absent | LookupRaises

  /**
   * DELETE /questions/<id> (`delete_question`). The `abort(404)` for a
   * missing question is raised inside the `try`, so the bare `except`
   * catches it and answers 422 instead; a lookup that raises is outside the
   * `try` and reaches Flask's default 500.
   */
  function DeleteQuestion(questionId: int, lookup: Lookup, delete: StoreCall<()>): (r: Response)
    ensures r.status == 200 <==> lookup == Found && delete.Returns?
    ensures r.status == 200 ==> r.body == Deleted(questionId)
    ensures r.status == 500 <==> lookup == LookupRaises
    ensures r.status == 500 ==> r.body == InternalError
    ensures r.status != 200 && r.status != 500 ==> r == HandleError(Unprocessable)
    ensures r.status != 404
  {
    match lookup
    case LookupRaises => Response(500, InternalError)
    case Absent => HandleError(Unprocessable)
    case Found =>
      match delete
      case Raises => HandleError(Unprocessable)
      case Returns(_) => Response(200, Deleted(questionId))
  }

  /** Deleting an id that does not exist gives the 422 envelope, not the 404 one. */
  lemma DeleteMissingIsUnprocessable(questionId: int, delete: StoreCall<()>)
    ensures DeleteQuestion(questionId, Absent, delete) == HandleError(Unprocessable)
    ensures DeleteQuestion(questionId, Absent, delete) != HandleError(NotFound)
  {
  }

  /**
   * `totalQuestions` counts the page, not the selection: page 1 of more
   * than ten questions reports 10, in both the list and the search response.
   */
  lemma TotalQuestionsIsPageLength<T>(selection: seq<T>, format: T -> QuestionJson, categories: seq<Category>,
                                      p: Payload, all: seq<T>, matches: T -> bool, insert: StoreCall<int>)
    requires |selection| > QuestionsPerPage && |Filter(all, matches)| > QuestionsPerPage
    requires Valid(p) && p.searchTerm
    ensures RetrieveQuestions(selection, 1, format, categories).body.totalQuestions == QuestionsPerPage < |selection|
    ensures CreateQuestion(Some(p), 1, format, Returns(all), matches, insert).body.totalQuestions
      == QuestionsPerPage < |Filter(all, matches)|
  {
  }

  /** The search as an order-preserving filter over the id-ordered questions. */
  function Filter<T>(s: seq<T>, keep: T -> bool): (r: seq<T>)
    ensures |r| <= |s|
    ensures forall k :: 0 <= k < |r| ==> r[k] in s && keep(r[k])
    ensures forall k :: 0 <= k < |s| && keep(s[k]) ==> s[k] in r
  {
    if s == [] then []
    else if keep(s[0]) then [s[0]] + Filter(s[1..], keep)
    else Filter(s[1..], keep)
  }

  /** Strictly ascending by a key (the id). */
  predicate Ascending<T>(s: seq<T>, key: T -> int)
  {
    forall i, j :: 0 <= i < j < |s| ==> key(s[i]) < key(s[j])
  }

  /** Every key in a filtered list is a key of the list it came from. */
  lemma {:induction false} FilterKeysFromSource<T>(s: seq<T>, keep: T -> bool, key: T -> int, bound: int)
    requires forall i :: 0 <= i < |s| ==> key(s[i]) > bound
    ensures forall i :: 0 <= i < |Filter(s, keep)| ==> key(Filter(s, keep)[i]) > bound
  {
    if s != [] {
      FilterKeysFromSource(s[1..], keep, key, bound);
    }
  }

  /** A filter of an id-ordered list is id-ordered: search results come in ascending id order. */
  lemma {:induction false} FilterKeepsOrder<T>(s: seq<T>, keep: T -> bool, key: T -> int)
    requires Ascending(s, key)
    ensures Ascending(Filter(s, keep), key)
  {
    if s != [] {
      var tail := s[1..];
      assert Ascending(tail, key);
      FilterKeepsOrder(tail, keep, key);
      if keep(s[0]) {
        var rest := Filter(tail, keep);
        FilterKeysFromSource(tail, keep, key, key(s[0]));
        var r := [s[0]] + rest;
        assert forall j :: 0 < j < |r| ==> r[j] == rest[j - 1];
      }
    }
  }
}
