/**
 * `validate_new_question`: the presence, truthiness and upper-bound check on
 * the `difficulty` and `category` fields of a new question.
 */
module Validation {
  import opened Wrappers

  /**
   * One field of the request's JSON object, as the validator uses it:
   * `Missing` when `data.get(key)` gives `None` (absent key or JSON null);
   * otherwise a value together with its Python truthiness and what `int()`
   * makes of it (`None` when `int()` raises).
   */
  datatype Field = Missing | Value(truthy: bool, asInt: Option<int>)

  /** A JSON integer: truthy unless 0, and `int()` returns it unchanged. */
  function IntVal(v: int): Field { Value(v != 0, Some(v)) }

  /** A truthy value that `int()` cannot convert, such as the string "abc". */
  const Unparsable: Field := Value(true, None)

  predicate Truthy(f: Field) { f.Value? && f.truthy }

  /** `int(f) > bound` evaluates to true (so `int(f)` did not raise). */
  predicate ParsesAbove(f: Field, bound: int) { f.Value? && f.asInt.Some? && f.asInt.value > bound }

  /** `int(f) > bound` evaluates to false. */
  predicate ParsesWithin(f: Field, bound: int) { f.Value? && f.asInt.Some? && f.asInt.value <= bound }

  /**
   * The validator's outcome: returning normally, raising ValidationError,
   * or raising some other exception (the ValueError or TypeError of `int()`).
   */
  datatype Verdict = Ok | ValidationErr | OtherErr

  /** The largest accepted difficulty and category. */
  const MaxDifficulty: int := 5
  const MaxCategory: int := 6

  /**
   * `validate_new_question(data)`. Both fields must be truthy; then
   * `int(difficulty) > 5 or int(category) > 6` is evaluated left to right
   * with short-circuit, so `int(category)` is never called once the
   * difficulty is already out of bounds.
   */
  function Validate(difficulty: Field, category: Field): (v: Verdict)
    ensures v == Ok <==>
      Truthy(difficulty) && Truthy(category)
      && ParsesWithin(difficulty, MaxDifficulty) && ParsesWithin(category, MaxCategory)
    ensures v == ValidationErr <==>
      !Truthy(difficulty) || !Truthy(category)
      || ParsesAbove(difficulty, MaxDifficulty)
      || (ParsesWithin(difficulty, MaxDifficulty) && ParsesAbove(category, MaxCategory))
    ensures v == OtherErr <==>
      Truthy(difficulty) && Truthy(category)
      && (difficulty.asInt.None? || (ParsesWithin(difficulty, MaxDifficulty) && category.asInt.None?))
  {
    if Truthy(difficulty) && Truthy(category) then
      match difficulty.asInt
      case None => OtherErr
      case Some(d) =>
        if d > MaxDifficulty then ValidationErr
        else
          match category.asInt
          case None => OtherErr
          case Some(c) => if c > MaxCategory then ValidationErr else Ok
    else
      ValidationErr
  }

  /** The bounds are inclusive: difficulty 5 with category 6 passes, one more fails. */
  lemma BoundsAreInclusive()
    ensures Validate(IntVal(5), IntVal(6)) == Ok
    ensures Validate(IntVal(6), IntVal(6)) == ValidationErr
    ensures Validate(IntVal(5), IntVal(7)) == ValidationErr
  {
  }

  /** There is no lower bound: any non-zero integer up to the bounds passes, negatives included. */
  lemma NoLowerBound(d: int, c: int)
    requires d != 0 && c != 0 && d <= MaxDifficulty && c <= MaxCategory
    ensures Validate(IntVal(d), IntVal(c)) == Ok
  {
  }

  /** A missing field, or the falsy value 0, is a ValidationError whatever the other field holds. */
  lemma MissingOrZeroRejected(other: Field)
    ensures Validate(Missing, other) == ValidationErr && Validate(other, Missing) == ValidationErr
    ensures Validate(IntVal(0), other) == ValidationErr && Validate(other, IntVal(0)) == ValidationErr
  {
  }

  /**
   * An unconvertible value is not a ValidationError, except that an
   * out-of-bounds difficulty is found first and hides an unconvertible category.
   */
  lemma UnparsableIsOtherError(d: int)
    requires d != 0
    ensures Validate(Unparsable, IntVal(3)) == OtherErr
    ensures d <= MaxDifficulty ==> Validate(IntVal(d), Unparsable) == OtherErr
    ensures d > MaxDifficulty ==> Validate(IntVal(d), Unparsable) == ValidationErr
  {
  }
}
