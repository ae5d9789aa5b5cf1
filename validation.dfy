/** The feedback validator of `validation.ts`: a rating and a comment of
    unknown type are checked in three steps, and the first failing step
    decides the single error that is reported. */
module Validation {
  import opened JsValues
  import opened JsText

  const IntegerError := "Rating must be an integer"
  const RangeError := "Rating must be between 1 and 5"
  const CommentError := "Comment is required when rating is 3 or below"

  /** `{ valid, error? }`: `error` is absent on success. */
  datatype ValidationResult = ValidationResult(valid: bool, error: Option<string>)

  /** The rating is a JavaScript number with no fractional part. */
  predicate IsIntegerRating(rating: JsValue) {
    rating.Num? && IsInteger(rating.num)
  }

  /** The rating is an integer on the 1..5 scale. */
  predicate InScale(rating: JsValue) {
    IsIntegerRating(rating) && 1 <= IntegerValue(rating.num) <= 5
  }

  /** A low rating: an integer on the scale, 3 or below. */
  predicate IsLowRating(rating: JsValue) {
    InScale(rating) && IntegerValue(rating.num) <= 3
  }

  /** The comment is a string with at least one character that is not whitespace. */
  predicate HasText(comment: JsValue) {
    comment.Str? && !AllWhitespace(comment.str)
  }

  /** `validateFeedback(rating, comment)`. The three errors are told apart by
      the checks that fail, in order: type, then range, then comment. */
  function ValidateFeedback(rating: JsValue, comment: JsValue): (r: ValidationResult)
    ensures r.valid <==> r.error == None
    ensures r.valid <==> InScale(rating) && (!IsLowRating(rating) || HasText(comment))
    ensures r.error == Some(IntegerError) <==> !IsIntegerRating(rating)
    ensures r.error == Some(RangeError) <==> IsIntegerRating(rating) && !InScale(rating)
    ensures r.error == Some(CommentError) <==> IsLowRating(rating) && !HasText(comment)
  {
    if !rating.Num? || !IsInteger(rating.num) then
      ValidationResult(false, Some(IntegerError))
    else if rating.num.value < 1.0 || rating.num.value > 5.0 then
      ValidationResult(false, Some(RangeError))
    else if rating.num.value <= 3.0 && (!comment.Str? || Trim(comment.str) == "") then
      ValidationResult(false, Some(CommentError))
    else
      ValidationResult(true, None)
  }

  /** The verdict on a rating that is not an integer does not depend on the comment. */
  lemma NonIntegerIgnoresComment(rating: JsValue, c1: JsValue, c2: JsValue)
    requires !IsIntegerRating(rating)
    ensures ValidateFeedback(rating, c1) == ValidateFeedback(rating, c2)
      == ValidationResult(false, Some(IntegerError))
  {
  }

  /** A rating of 4 or 5 is accepted with any comment at all. */
  lemma HighRatingAcceptsAnyComment(k: int, comment: JsValue)
    requires 4 <= k <= 5
    ensures ValidateFeedback(Num(Finite(k as real)), comment) == ValidationResult(true, None)
  {
  }

  /** The rejected ratings of the unit tests in `validation.test.ts`. */
  lemma RatingTestCases()
    ensures ValidateFeedback(Num(Finite(3.5)), Null).error == Some(IntegerError)
    ensures ValidateFeedback(Str("3"), Null).error == Some(IntegerError)
    ensures ValidateFeedback(Num(Finite(0.0)), Null).error == Some(RangeError)
    ensures ValidateFeedback(Num(Finite(6.0)), Null).error == Some(RangeError)
  {
  }

  /** The low ratings of the unit tests in `validation.test.ts`. */
  lemma CommentTestCases()
    ensures ValidateFeedback(Num(Finite(1.0)), Null).error == Some(CommentError)
    ensures ValidateFeedback(Num(Finite(2.0)), Str("")).error == Some(CommentError)
    ensures ValidateFeedback(Num(Finite(3.0)), Str("   ")).error == Some(CommentError)
    ensures ValidateFeedback(Num(Finite(3.0)), Str("Could be better")).valid
  {
    assert !AllWhitespace("Could be better") by { assert !IsWhitespace("Could be better"[0]); }
  }
}
