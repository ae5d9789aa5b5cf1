# ROTI feedback rules in Dafny

ROTI ("Return On Time Invested") is a 1-to-5 rating that an audience gives,
optionally with a comment. The backend applies one business rule to every
submission and computes one statistic. This project models both and proves
their properties:

- `validation.ts` validates a rating and a comment whose types are unknown
  (`validateFeedback(rating, comment)`). It checks three things in order, and
  the first check that fails decides the one error it reports. The rating must
  be an integer. It must lie in 1..5. A rating of 3 or below needs a comment
  that is a string and is not empty once trimmed.
- `roti-service.ts` holds a second validator for a typed input. It merges the
  integer check and the range check into one French message and reads a
  missing or null comment as `""`. The file also has `normalizeComment`, which
  trims a comment and turns an empty result into `null`, and `computeAverage`,
  which returns 0 for no ratings and otherwise the mean rounded to one decimal
  with `Math.round(average * 10) / 10`.

Modules:

- `JsText` (`js_text.dfy`) models JavaScript's `trim`. It removes leading and
  trailing characters of the ECMAScript WhiteSpace and LineTerminator sets.
  The result is proved to be the unique trimmed middle part between two runs
  of whitespace, and trimming is proved idempotent.
- `JsValues` (`js_values.dfy`) holds the untyped values that reach the
  validators (numbers, strings, `null`, `undefined`, anything else) and
  `Number.isInteger`.
- `Validation` (`validation.dfy`) models `validation.ts`.
- `RotiService` (`roti_service.dfy`) models `roti-service.ts`. The average is
  computed exactly. Ten times the average is `(20 * sum + n) div (2 * n)`. This
  is proved to be `Math.round` (round half up) of ten times the exact mean. The
  average is proved to lie in 1..5 for ratings on the scale and not to depend
  on the order of the ratings.

In the code, `computeAverage` returns `0` for an empty list rather than a
separate "no data" value, and it rounds to one decimal. The two validators use
their own error strings, English in `validation.ts` and French in
`roti-service.ts`. The unit tests in `index.test.ts` expect a
`calculateAverage` function and a `validateFeedback` that throws English
messages. Neither matches `roti-service.ts`, so only their two arithmetic
examples are modelled: no ratings average to 0, and 5, 4, 4 averages to 4.3.

## Model

| member | source | states |
|---|---|---|
| `JsText.Trim` | apps/backend/src/validation.ts:16 | `trim()` returns a string with no whitespace at either end. It is empty exactly when the input is all whitespace. |
| `JsText.TrimSplits` | apps/backend/src/roti-service.ts:32 | The input is the trimmed string with a run of whitespace on each side. |
| `JsText.TrimUnique` | apps/backend/src/roti-service.ts:32 | Any trimmed middle part between two whitespace runs is what `trim()` returns. This is a reference definition of trimming. |
| `JsText.TrimIdempotent` | apps/backend/src/roti-service.ts:32-33 | Trimming a trimmed string changes nothing. |
| `JsValues.IsInteger` | apps/backend/src/validation.ts:7 | `Number.isInteger` holds exactly for a finite number that equals some integer. |
| `JsValues.IntegerValue` | apps/backend/src/validation.ts:7 | A number that passes `Number.isInteger` equals an integer exactly. |
| `Validation.ValidateFeedback` | apps/backend/src/validation.ts:6-22 | `error` is absent exactly when `valid` holds. `valid` holds iff the rating is an integer in 1..5 and it is above 3 or the comment is a string with a non-whitespace character. The integer error is reported iff the rating is not an integer number. The range error is reported iff it is an integer outside 1..5. The comment error is reported iff it is an integer in 1..3 and the comment is not a string or is all whitespace. So the checks apply in order and exactly one error is reported. |
| `Validation.NonIntegerIgnoresComment` | apps/backend/src/validation.ts:7-9 | A rating that is not an integer number is rejected with the integer error, whatever the comment. |
| `Validation.HighRatingAcceptsAnyComment` | apps/backend/src/validation.ts:15-21 | A rating of 4 or 5 is accepted with any comment, including null and non-strings. |
| `Validation.RatingTestCases` | apps/backend/src/validation.test.ts:6-32 | 3.5 and "3" get the integer error; 0 and 6 get the range error. |
| `Validation.CommentTestCases` | apps/backend/src/validation.test.ts:36-59 | Ratings 1, 2 and 3 with null, "" and "   " get the comment error; 3 with "Could be better" is accepted. |
| `RotiService.TrimmedOrEmpty` | apps/backend/src/roti-service.ts:23 | The trimmed comment is empty iff the comment is absent, null or all whitespace. |
| `RotiService.ValidateFeedback` | apps/backend/src/roti-service.ts:18-29 | `error` is absent exactly when `ok` holds. `ok` holds iff the rating is an integer in 1..5 and it is above 3 or the comment has a non-whitespace character. The rating error is reported iff the rating is not an integer in 1..5. The comment error is reported iff it is an integer in 1..3 and the comment is absent, null or all whitespace. |
| `RotiService.NormalizeComment` | apps/backend/src/roti-service.ts:31-34 | The result is null iff the comment is absent, null or all whitespace. Otherwise it is the non-empty trimmed comment, with no whitespace at either end. |
| `RotiService.NormalizeIdempotent` | apps/backend/src/roti-service.ts:32-33 | Normalising a normalised comment gives it back unchanged. |
| `RotiService.AcceptedLowRatingKeepsComment` | apps/backend/src/roti-service.ts:24-33 | An accepted feedback with a rating of 3 or below has a comment that normalises to non-null. |
| `RotiService.ValidatorsAgree` | apps/backend/src/roti-service.ts:18-29 | This validator and the one in `validation.ts` accept the same feedback. Its rating error occurs exactly when the other reports its integer error or its range error. |
| `RotiService.Sum` | apps/backend/src/roti-service.ts:38 | The `reduce` total. For ratings in 1..5, the total of `n` ratings lies between `n` and `5n`. |
| `RotiService.Mean` | apps/backend/src/roti-service.ts:39 | `total / ratings.length` in exact arithmetic: the mean times the count is the total. |
| `RotiService.IsMathRound` | apps/backend/src/roti-service.ts:40 | `Math.round(x)` is `k` exactly when `k - 1/2 <= x < k + 1/2`, and that `k` is `floor(x + 1/2)`, so halves round up. |
| `RotiService.AverageTenths` | apps/backend/src/roti-service.ts:40 | Ten times the average is 0 for no ratings. Otherwise it is `Math.round` of ten times the exact mean: the integer `k` with `k - 1/2 <= 10 * mean < k + 1/2`. |
| `RotiService.RoundOfQuotient` | apps/backend/src/roti-service.ts:39-40 | Floor division of `20 * sum + n` by `2 * n` rounds `10 * sum / n` half up. |
| `RotiService.ComputeAverage` | apps/backend/src/roti-service.ts:36-41 | The result is 0 for no ratings. It is always a multiple of 0.1. For a non-empty list, ten times it is `Math.round` of ten times the exact mean. |
| `RotiService.MeanInScale` | apps/backend/src/roti-service.ts:39 | The exact mean of ratings in 1..5 lies in 1..5. |
| `RotiService.AverageInScale` | apps/backend/src/roti-service.ts:36-41 | For a non-empty list of ratings in 1..5, the rounded average lies in 1..5 and ten times it lies in 10..50. |
| `RotiService.SumConcat` | apps/backend/src/roti-service.ts:38 | The total of two concatenated lists is the sum of their totals. |
| `RotiService.SumPermutation` | apps/backend/src/roti-service.ts:38 | Two lists with the same multiset of ratings have the same total. |
| `RotiService.AveragePermutation` | apps/backend/src/roti-service.ts:36-41 | Reordering the ratings does not change the average. |
| `RotiService.AverageExamples` | apps/backend/src/index.test.ts:38-45 | No ratings average to 0, and 5, 4, 4 average to 4.3. |

## Left out

- Floating point: ratings and averages are exact reals and integers. The model does not reproduce IEEE-754 effects of `total / ratings.length`, `average * 10` or `/ 10`. It also ignores the loss of integer precision beyond 2^53.
- `NaN` and the infinities are one `NonFinite` number. Every check treats them alike because `Number.isInteger` rejects them all.
- `RotiService.ComputeAverage` takes integer ratings only. Both validators admit only integer ratings in 1..5 (apps/backend/src/roti-service.ts:19, apps/backend/src/validation.ts:7-13), so a list of validated ratings is a list of integers. A fractional rating passed to `computeAverage` directly is not modelled.
- `RotiService.ValidateFeedback` takes the typed `FeedbackInput`. A comment of another runtime type would make `trim` throw, and that case is not modelled.
- Persistence, the Express routes, the React components and the Tailwind configuration are not part of this model. Some of them carry their own, divergent variants of the rules, and the model does not cover these:
  - The POST handler in `routes/feedbacks.ts` checks the rating without an integer check, so 2.5 passes. A truthy comment that is not a string makes its `comment.trim()` throw, outside the handler's `try`.
  - The stats route reports the raw SQL `AVG` from `database.ts`. That average is unrounded and is `null` when there are no rows, so it differs from `computeAverage`.
  - `App.tsx` shows "—" when there are no feedbacks and `toFixed(1)` of the average otherwise.
  - The SQLite schema in `db.ts` has no range check on the rating column. In `roti-db.ts`, the `INTEGER` column with its range check still admits a fractional rating such as 2.5.
