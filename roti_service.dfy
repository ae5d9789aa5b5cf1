/** The ROTI service of `roti-service.ts`: a second validator for a typed
    feedback input (integer and range checks merged into one error), the
    normalisation of a comment before it is stored, and the average rating
    rounded to one decimal. */
module RotiService {
  import opened JsValues
  import opened JsText
  import Validation

  const RatingError := "La note doit etre entre 1 et 5."
  const CommentError := "Le commentaire est obligatoire pour une note de 1 a 3."

  /** `comment?: string | null`: absent, null, or a string. */
  datatype Comment = Absent | NullComment | Text(s: string)

  /** `FeedbackInput`: a numeric rating and an optional comment. */
  datatype FeedbackInput = FeedbackInput(rating: Number, comment: Comment)

  /** `{ ok, error? }`: `error` is absent on success. */
  datatype ValidationResult = ValidationResult(ok: bool, error: Option<string>)

  /** The rating is an integer on the 1..5 scale. */
  predicate InScale(rating: Number) {
    IsInteger(rating) && 1 <= IntegerValue(rating) <= 5
  }

  /** The comment is present and has a character that is not whitespace. */
  predicate HasText(comment: Comment) {
    comment.Text? && !AllWhitespace(comment.s)
  }

  /** `input.comment?.trim() ?? ""`: an absent or null comment reads as "". */
  function TrimmedOrEmpty(comment: Comment): (t: string)
    ensures t == [] <==> !HasText(comment)
  {
    match comment
    case Text(s) => Trim(s)
    case _ => ""
  }

  /** `validateFeedback(input)`: a rating that is not an integer on the scale
      is one error; a rating of 3 or below without a comment is the other. */
  function ValidateFeedback(input: FeedbackInput): (r: ValidationResult)
    ensures r.ok <==> r.error == None
    ensures r.ok <==> InScale(input.rating) && (IntegerValue(input.rating) > 3 || HasText(input.comment))
    ensures r.error == Some(RatingError) <==> !InScale(input.rating)
    ensures r.error == Some(CommentError) <==>
      InScale(input.rating) && IntegerValue(input.rating) <= 3 && !HasText(input.comment)
  {
    if !IsInteger(input.rating) || input.rating.value < 1.0 || input.rating.value > 5.0 then
      ValidationResult(false, Some(RatingError))
    else if input.rating.value <= 3.0 && |TrimmedOrEmpty(input.comment)| == 0 then
      ValidationResult(false, Some(CommentError))
    else
      ValidationResult(true, None)
  }

  /** `normalizeComment(comment)`: the trimmed comment, or null when there is
      no comment or it trims to nothing. */
  function NormalizeComment(comment: Comment): (r: Option<string>)
    ensures r == None <==> !HasText(comment)
    ensures r.Some? ==> r.value != [] && IsTrimmed(r.value) && r.value == Trim(comment.s)
  {
    match comment
    case Text(s) =>
      var t := Trim(s);
      if |t| > 0 then Some(t) else None
    case _ => None
  }

  /** A stored comment read back as a comment input: null stays null. */
  function Stored(c: Option<string>): Comment {
    match c
    case Some(s) => Text(s)
    case None => NullComment
  }

  /** Normalising a normalised comment changes nothing. */
  lemma NormalizeIdempotent(comment: Comment)
    ensures NormalizeComment(Stored(NormalizeComment(comment))) == NormalizeComment(comment)
  {
    if comment.Text? {
      TrimIdempotent(comment.s);
    }
  }

  /** An accepted feedback with a rating of 3 or below keeps a non-null comment. */
  lemma AcceptedLowRatingKeepsComment(input: FeedbackInput)
    requires ValidateFeedback(input).ok
    requires IntegerValue(input.rating) <= 3
    ensures NormalizeComment(input.comment).Some?
  {
  }

  /** The comment as the untyped validator of `validation.ts` sees it. */
  function AsJsValue(comment: Comment): JsValue {
    match comment
    case Absent => Undefined
    case NullComment => Null
    case Text(s) => Str(s)
  }

  /** The two validators accept the same feedback, and the service's rating
      error is the union of the other's integer and range errors. */
  lemma ValidatorsAgree(input: FeedbackInput)
    ensures var v := Validation.ValidateFeedback(Num(input.rating), AsJsValue(input.comment));
      && v.valid == ValidateFeedback(input).ok
      && (v.error in {Some(Validation.IntegerError), Some(Validation.RangeError)}
          <==> ValidateFeedback(input).error == Some(RatingError))
  {
  }

  // ---------------------------------------------------------------------
  // computeAverage, in exact arithmetic

  /** `ratings.reduce((sum, rating) => sum + rating, 0)`, folded from the left.
      The total of `n` ratings on the 1..5 scale lies between `n` and `5n`. */
  function Sum(ratings: seq<int>): (total: int)
    ensures AllInScale(ratings) ==> |ratings| <= total <= 5 * |ratings|
  {
    if ratings == [] then 0 else Sum(ratings[..|ratings| - 1]) + ratings[|ratings| - 1]
  }

  /** `total / ratings.length`, exactly: the mean times the count is the total. */
  function Mean(ratings: seq<int>): (m: real)
    requires ratings != []
    ensures m * |ratings| as real == Sum(ratings) as real
  {
    Sum(ratings) as real / |ratings| as real
  }

  /** `Math.round(x)` for a finite `x`: the integer `k` with `k - 1/2 <= x < k + 1/2`,
      that is, halves round up; this is the integer `floor(x + 1/2)`. */
  predicate IsMathRound(k: int, x: real): (b: bool)
    ensures b <==> k == (x + 0.5).Floor
  {
    k as real <= x + 0.5 < k as real + 1.0
  }

  /** Ten times the average, rounded: `Math.round(average * 10)`. */
  function AverageTenths(ratings: seq<int>): (t: int)
    ensures ratings == [] ==> t == 0
    ensures ratings != [] ==> IsMathRound(t, 10.0 * Mean(ratings))
  {
    if ratings == [] then 0
    else
      var n := |ratings|;
      var t := (20 * Sum(ratings) + n) / (2 * n);
      RoundOfQuotient(t, Sum(ratings), n);
      t
  }

  /** `computeAverage(ratings)`: 0 for no ratings, otherwise the mean rounded
      half up to a multiple of 0.1. */
  function ComputeAverage(ratings: seq<int>): (avg: real)
    ensures ratings == [] ==> avg == 0.0
    ensures (10.0 * avg).Floor as real == 10.0 * avg
    ensures ratings != [] ==> IsMathRound((10.0 * avg).Floor, 10.0 * Mean(ratings))
  {
    AverageTenths(ratings) as real / 10.0
  }

  /** Integer floor division by `2n` rounds `10 s / n` half up. */
  lemma RoundOfQuotient(t: int, s: int, n: int)
    requires n > 0
    requires t == (20 * s + n) / (2 * n)
    ensures IsMathRound(t, 10.0 * (s as real / n as real))
  {
    var q := 20 * s + n;
    var d := 2 * n;
    assert d * t <= q < d * t + d by {
      assert q == d * t + q % d;
    }
    CastProduct(t, d);
    var x := 10.0 * (s as real / n as real);
    assert (d as real) * (x + 0.5) == q as real by {
      assert n as real * (s as real / n as real) == s as real;
    }
    RoundOfBounds(t as real, q as real, d as real, x + 0.5);
  }

  /** Dividing `D T <= Q < D T + D` by the positive `D`, where `Q = D y`. */
  lemma RoundOfBounds(T: real, Q: real, D: real, y: real)
    requires D > 0.0
    requires D * T <= Q < D * T + D
    requires D * y == Q
    ensures T <= y < T + 1.0
  {
    MultiplyCancels(T, y, D);
    assert D * (T + 1.0) == D * T + D;
    MultiplyCancels(y, T + 1.0, D);
  }

  /** Converting a product to a real is multiplying the converted factors. */
  lemma CastProduct(a: int, b: int)
    ensures (a * b) as real == a as real * b as real
  {
  }

  /** Dividing both sides of an inequality by the same positive factor. */
  lemma MultiplyCancels(a: real, b: real, c: real)
    requires c > 0.0
    ensures c * a <= c * b ==> a <= b
    ensures c * a < c * b ==> a < b
  {
  }

  /** Every rating is on the 1..5 scale. */
  predicate AllInScale(ratings: seq<int>) {
    forall i :: 0 <= i < |ratings| ==> 1 <= ratings[i] <= 5
  }

  /** The mean of ratings on the scale is on the scale. */
  lemma MeanInScale(ratings: seq<int>)
    requires ratings != [] && AllInScale(ratings)
    ensures 1.0 <= Mean(ratings) <= 5.0
  {
    var n := |ratings| as real;
    assert n * Mean(ratings) == Sum(ratings) as real;
    QuotientBetween(Sum(ratings) as real, n, Mean(ratings));
  }

  /** A total between `n` and `5n` over `n` lies between 1 and 5. */
  lemma QuotientBetween(total: real, n: real, m: real)
    requires n > 0.0 && n * 1.0 <= total <= n * 5.0
    requires n * m == total
    ensures 1.0 <= m <= 5.0
  {
  }

  /** The average of ratings on the scale is itself on the scale. */
  lemma AverageInScale(ratings: seq<int>)
    requires ratings != [] && AllInScale(ratings)
    ensures 10 <= AverageTenths(ratings) <= 50
    ensures 1.0 <= ComputeAverage(ratings) <= 5.0
  {
    MeanInScale(ratings);
  }

  /** Appending lists adds their totals. */
  lemma {:induction false} SumConcat(a: seq<int>, b: seq<int>)
    ensures Sum(a + b) == Sum(a) + Sum(b)
  {
    if b == [] {
      assert a + b == a;
    } else {
      var b' := b[..|b| - 1];
      assert (a + b)[..|a + b| - 1] == a + b';
      SumConcat(a, b');
    }
  }

  /** The total does not depend on the order of the ratings. */
  lemma {:induction false} SumPermutation(a: seq<int>, b: seq<int>)
    requires multiset(a) == multiset(b)
    ensures Sum(a) == Sum(b)
    decreases |a|
  {
    if a == [] {
      assert |b| == |multiset(b)| == 0;
    } else {
      var a' := a[..|a| - 1];
      var x := a[|a| - 1];
      assert a == a' + [x];
      assert x in multiset(b);
      var j :| 0 <= j < |b| && b[j] == x;
      var b' := b[..j] + b[j + 1..];
      assert b == b[..j] + [x] + b[j + 1..];
      assert multiset(b) == multiset(b[..j]) + multiset{x} + multiset(b[j + 1..]);
      assert multiset(a) == multiset(a') + multiset{x};
      assert multiset(b') == multiset(b[..j]) + multiset(b[j + 1..]);
      assert multiset(a') + multiset{x} == multiset(b') + multiset{x};
      forall e ensures multiset(b')[e] == multiset(a')[e] {
        assert (multiset(a') + multiset{x})[e] == (multiset(b') + multiset{x})[e];
      }
      assert multiset(b') == multiset(a');
      SumPermutation(a', b');
      SumConcat(b[..j] + [x], b[j + 1..]);
      SumConcat(b[..j], [x]);
      SumConcat(b[..j], b[j + 1..]);
      assert Sum([x]) == x by { assert [x][..0] == []; }
    }
  }

  /** The average does not depend on the order of the ratings. */
  lemma AveragePermutation(a: seq<int>, b: seq<int>)
    requires multiset(a) == multiset(b)
    ensures ComputeAverage(a) == ComputeAverage(b)
  {
    assert |a| == |multiset(a)| == |multiset(b)| == |b|;
    SumPermutation(a, b);
  }

  /** The examples of `index.test.ts`: no ratings average 0, and 5, 4, 4 average 4.3. */
  lemma AverageExamples()
    ensures ComputeAverage([]) == 0.0
    ensures ComputeAverage([5, 4, 4]) == 4.3
  {
    var r := [5, 4, 4];
    assert Sum(r) == 13 by {
      assert r[..2] == [5, 4] && [5, 4][..1] == [5] && [5][..0] == [];
    }
  }
}
