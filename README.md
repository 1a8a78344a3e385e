# Trivia API backend: pagination, validation and handler outcomes

A Dafny model of the logic in the trivia question bank's Flask backend
(`backend/flaskr/__init__.py`):

- **Pagination** (`pagination.dfy`): `paginate` turns an ordered selection
  and a page number into a page of at most ten formatted items, the total
  page count (Python's `round(n / 10)`, ties to even, computed in integers),
  the unclamped current page and the next and previous page numbers. Slicing
  follows Python's rules exactly, so pages 0 and below are modelled too.
- **Validation** (`validation.dfy`): `validate_new_question` requires a
  truthy `difficulty` and `category`, then checks `int(difficulty) > 5 or
  int(category) > 6` with Python's left-to-right short-circuit. A field is
  abstracted to its truthiness and what `int()` makes of it, so 0, strings
  that `int()` accepts and values it rejects are all covered. The validator
  returns normally, raises ValidationError, or raises another exception.
- **Categories** (`categories.dfy`): `serialize_categories` is a method with
  a loop that folds the id-ordered rows into a dictionary. It is proved equal
  to a fold function. The lemmas give that function's keys, values and size.
  The dictionary keys are `str(id)`; they are modelled by the integer ids,
  because `str` is injective on integers.
- **Handlers** (`handlers.dfy`): POST /questions, DELETE /questions/<id> and
  GET /questions are modelled as pure functions. Each maps abstract inputs to
  a status code and a body. The inputs are whether the body is a JSON object,
  its fields, the store's replies (return or raise) and the delete lookup's
  result. The 400/404/422 error handlers are modelled with their exact
  envelopes.

`wrappers.dfy` holds the `Option` type used for Python's `None`.

### Where the code departs from its tests and its own intent

The model follows the code as written:

- POST /questions validates before it looks at `searchTerm`. A body that
  holds only a search term therefore gets 400 (`SearchOnlyBodyIsBadRequest`).
  The comment at `backend/flaskr/__init__.py:209-216` asks for a search by
  phrase, and `backend/test_flaskr.py:72-77` posts `{"searchTerm": "What"}`
  and expects 200.
- DELETE of a missing id gives 422, not 404 (`DeleteMissingIsUnprocessable`).
  The `abort(404)` at `backend/flaskr/__init__.py:127` was evidently meant to
  reach the 404 handler. It raises inside the `try`, though, and the bare
  `except` at line 131 turns it into `abort(422)`.
- `total_pages` is rounded, not a ceiling. With 14 questions there is one page
  and page 1 has no `next_page`. So with a count ending in 1 to 4, the last
  items are not on any page up to `total_pages` (`RoundingStrandsTail`).
- `totalQuestions` is the length of the returned page, not of the selection
  (`TotalQuestionsIsPageLength`).

## Model

| member | source | states |
|---|---|---|
| `Pagination.TotalPages` | backend/flaskr/__init__.py:15-16 | the page count is the integer nearest to n/10 (within 5 of n after multiplying by 10), and a tie goes to the even count |
| `Pagination.TotalPagesIsRoundHalfEven` | backend/flaskr/__init__.py:16 | no other count is nearest with ties to even, so the integer formula is Python's `round` |
| `Pagination.TotalPagesBetweenFloorAndCeiling` | backend/flaskr/__init__.py:16 | the page count lies between the floor and the ceiling of n/10 |
| `Pagination.TotalPagesExamples` | backend/flaskr/__init__.py:16 | 0→0, 5→0, 14→1, 15→2, 19→2, 25→2; for 14 the count is below the ceiling |
| `Pagination.FormatThenSlice` | backend/flaskr/__init__.py:23-24 | formatting every item and then slicing gives the same page as formatting only the sliced items |
| `Pagination.Paginate` | backend/flaskr/__init__.py:14-26 | page count as above; current page returned unchanged; next page is p+1 exactly when p < total pages and previous page is p-1 exactly when p > 1, otherwise None; at most 10 items; for p ≥ 1 the length is max(0, min(10, n − 10(p−1))) and item k is `format` of selection item 10(p−1)+k |
| `Pagination.PageEmptyPastEnd` | backend/flaskr/__init__.py:20-24 | for p ≥ 1 the page is empty, with no error, exactly when the offset 10(p−1) is at least n |
| `Pagination.PageZeroIsEmpty` | backend/flaskr/__init__.py:20-24 | page 0 is always empty |
| `Pagination.NegativePageCountsFromEnd` | backend/flaskr/__init__.py:17-24 | every negative page p gives the formatted items from max(0, n+10(p−1)) to max(0, n+10p): Python counts its negative bounds from the end and clamps them at the front |
| `Pagination.NegativePageExamples` | backend/flaskr/__init__.py:20-24 | page −1 is items n−20 to n−10 when n ≥ 20, the first five of 15 items, and empty for 10 or fewer items |
| `Pagination.PagesArePrefix` | backend/flaskr/__init__.py:20-24 | pages 1..k concatenated are the first min(n, 10k) formatted items, in order, with no gap or repeat |
| `Pagination.RoundingStrandsTail` | backend/flaskr/__init__.py:15-18 | when n mod 10 is 1 to 4, pages 1..total_pages hold fewer than n items and the last of them has no next page |
| `Validation.Validate` | backend/flaskr/__init__.py:145-152 | accepts exactly when both fields are truthy and convert within the bounds 5 and 6; raises ValidationError exactly when a field is missing or falsy, or the difficulty converts above 5, or it converts within 5 and the category converts above 6; any other outcome is an `int()` failure |
| `Validation.BoundsAreInclusive` | backend/flaskr/__init__.py:149-150 | difficulty 5 with category 6 passes; difficulty 6 or category 7 raises ValidationError |
| `Validation.NoLowerBound` | backend/flaskr/__init__.py:148-150 | every non-zero difficulty ≤ 5 with every non-zero category ≤ 6 passes, negatives included |
| `Validation.MissingOrZeroRejected` | backend/flaskr/__init__.py:146-152 | a missing field or the value 0, in either position, is a ValidationError whatever the other field holds |
| `Validation.UnparsableIsOtherError` | backend/flaskr/__init__.py:149 | an unconvertible difficulty, or an unconvertible category beside an in-bounds difficulty, is not a ValidationError; an out-of-bounds difficulty hides an unconvertible category |
| `Categories.SerializeCategories` | backend/flaskr/__init__.py:59-68 | the dictionary the loop builds is the in-order fold of `id → type` updates |
| `Categories.CategoryMapKeys` | backend/flaskr/__init__.py:65-67 | the keys are exactly the ids that occur in the rows |
| `Categories.CategoryMapLastWins` | backend/flaskr/__init__.py:66-67 | an id maps to the `type` of the last row carrying it |
| `Categories.CategoryMapValuesFromRows` | backend/flaskr/__init__.py:66-67 | every entry comes from some row with that id and that `type` |
| `Categories.CategoryMapSize` | backend/flaskr/__init__.py:60-67 | with distinct ids the dictionary has one key per row |
| `Handlers.HandleError` | backend/flaskr/__init__.py:245-261 | an error response has the error's status, `success` false, `error` equal to the status and the error's message |
| `Handlers.ErrorEnvelopesDistinct` | backend/flaskr/__init__.py:245-261 | distinct errors give distinct statuses and distinct messages |
| `Handlers.ErrorEnvelopeValues` | backend/flaskr/__init__.py:245-261 | the three envelopes are 400 "bad request", 404 "resource not found" and 422 "unprocessable" |
| `Handlers.RetrieveQuestions` | backend/flaskr/__init__.py:91-112 | GET /questions is always 200 and returns the requested page of the selection; `totalQuestions` is the page's length (at most 10); the page count, current page, previous and next page are those of that page; it also returns the category dictionary |
| `Handlers.CreateQuestion` | backend/flaskr/__init__.py:154-206 | only 200, 400 or 422 is returned; 400 exactly on a ValidationError; 422 exactly on a non-object body, an `int()` failure or a raising store call; a non-200 response is the matching error envelope; a valid body with a truthy search term returns the requested page of the matching questions, with `totalQuestions` its length and the page count, current, previous and next page of that page, and no categories; a valid body without one returns the inserted row's id |
| `Handlers.SearchOnlyBodyIsBadRequest` | backend/flaskr/__init__.py:156-166 | a body with only `searchTerm` gets the 400 envelope, whatever the store would reply |
| `Handlers.SearchTakesPrecedenceOverInsert` | backend/flaskr/__init__.py:164-188 | a valid body with a truthy search term returns a question list and never a `created` id |
| `Handlers.SearchPageHoldsMatchesInOrder` | backend/flaskr/__init__.py:166-188 | for an id-ordered selection, the matches are in ascending id order, and each item of search page p is the formatted match at index 10(p−1)+k, which is a matching row of the selection |
| `Handlers.DeleteQuestion` | backend/flaskr/__init__.py:121-132 | 200 with `{question_id: id}` exactly when the row is found and its delete returns; 500 exactly when the lookup raises; otherwise the 422 envelope; never 404 |
| `Handlers.DeleteMissingIsUnprocessable` | backend/flaskr/__init__.py:125-132 | a missing id gives the 422 envelope, not the 404 one |
| `Handlers.TotalQuestionsIsPageLength` | backend/flaskr/__init__.py:106 | with more than ten questions (or matches), page 1 of the list and of the search (line 181) reports `totalQuestions` 10, which is below the selection's size |
| `Handlers.Filter` | backend/flaskr/__init__.py:167-169 | the search selection holds only matching rows of the store's selection and every matching one |
| `Handlers.FilterKeepsOrder` | backend/flaskr/__init__.py:167-169 | a filter of an id-ordered selection is id-ordered |

## Left out

- Flask app construction, routing, `jsonify`, CORS and the `after_request` header injection: framework plumbing with no logic of its own.
- SQLAlchemy queries (`order_by`, `one_or_none`, `ilike`): these are database semantics. In the handlers the store's replies are inputs. The search keeps, in order, the rows of the store's id-ordered selection that an abstract predicate accepts (`Handlers.Filter`). The case-insensitive substring match and the SQL wildcards `%` and `_` are not modelled.
- `Question.format`, `insert` and `delete` are in `models.py`, which is not part of this model. `format` is an abstract function from a row to a JSON object of scalar fields (`Handlers.QuestionJson`); `insert` and `delete` are store calls that return or raise.
- `request.args.get("page", 1, type=int)`: the page is an integer already decided (1 when absent or unparsable).
- Paginate: does not model the float behaviour of `round(n / 10)` above 2^53 items; the integer rounding is exact below that.
- RetrieveQuestions: a store exception in GET /questions is not modelled. There is no `try`, so it would reach Flask's default 500. GET /categories is modelled only through `SerializeCategories`; `jsonify` and the outer `"categories"` key are left out.
- The constant `current_category: None` field of the list and search bodies is left out of `Body`.
- The `question` and `answer` fields of a new question are never checked. Whether the store accepts them is part of the `insert` reply.
- The TODO endpoints (questions by category, quizzes) do not exist in the code and are not modelled.
