/** JavaScript's `String.prototype.trim`, as used by both feedback validators
    and by comment normalisation: it strips every leading and trailing
    character of the ECMAScript WhiteSpace and LineTerminator sets. */
module JsText {

  /** The ECMAScript WhiteSpace (TAB, VT, FF, ZWNBSP and the Unicode `Zs`
      category) and LineTerminator (LF, CR, LS, PS) code points. */
  predicate IsWhitespace(c: char) {
    || c == '\t' || c == '\U{000B}' || c == '\U{000C}' || c == ' '
    || c == '\U{00A0}' || c == '\U{FEFF}'
    || c == '\U{1680}' || ('\U{2000}' <= c <= '\U{200A}')
    || c == '\U{202F}' || c == '\U{205F}' || c == '\U{3000}'
    || c == '\n' || c == '\r' || c == '\U{2028}' || c == '\U{2029}'
  }

  /** Every character of `s` is whitespace (this includes the empty string). */
  predicate AllWhitespace(s: string) {
    forall i :: 0 <= i < |s| ==> IsWhitespace(s[i])
  }

  /** `s` neither starts nor ends with whitespace. */
  predicate IsTrimmed(s: string) {
    s == [] || (!IsWhitespace(s[0]) && !IsWhitespace(s[|s| - 1]))
  }

  /** How many whitespace characters `s` starts with. */
  function LeadingWhitespace(s: string): (n: nat)
    ensures n <= |s|
    ensures forall i :: 0 <= i < n ==> IsWhitespace(s[i])
    ensures n == |s| || !IsWhitespace(s[n])
  {
    if s != [] && IsWhitespace(s[0]) then 1 + LeadingWhitespace(s[1..]) else 0
  }

  /** Where the run of whitespace that `s` ends with begins. */
  function TrailingWhitespaceStart(s: string): (n: nat)
    ensures n <= |s|
    ensures forall i :: n <= i < |s| ==> IsWhitespace(s[i])
    ensures n == 0 || !IsWhitespace(s[n - 1])
  {
    if s != [] && IsWhitespace(s[|s| - 1]) then TrailingWhitespaceStart(s[..|s| - 1]) else |s|
  }

  /** `s.trim()`: the result is itself trimmed, and it is empty exactly when
      `s` is all whitespace. TrimSplits shows where it sits inside `s`, and
      TrimUnique that these facts pin it down. */
  function Trim(s: string): (r: string)
    ensures |r| <= |s|
    ensures IsTrimmed(r)
    ensures r == [] <==> AllWhitespace(s)
  {
    var lo := LeadingWhitespace(s);
    var t := s[lo..];
    var r := t[..TrailingWhitespaceStart(t)];
    // a non-empty `t` starts with a character that is not whitespace, which
    // TrailingWhitespaceStart cannot reach
    assert r == [] ==> lo == |s|;
    r
  }

  /** `s` is the trimmed string flanked by the whitespace runs that Trim removed. */
  lemma TrimSplits(s: string) returns (lo: nat, hi: nat)
    ensures lo <= hi <= |s|
    ensures s[lo..hi] == Trim(s)
    ensures AllWhitespace(s[..lo]) && AllWhitespace(s[hi..])
  {
    lo := LeadingWhitespace(s);
    var t := s[lo..];
    hi := lo + TrailingWhitespaceStart(t);
    assert s[lo..hi] == t[..hi - lo];
    forall i | 0 <= i < |s[hi..]| ensures IsWhitespace(s[hi..][i]) {
      assert s[hi..][i] == t[hi - lo + i];
    }
  }

  /** Leading whitespace in front of a string that does not start with
      whitespace is exactly what is counted as leading whitespace. */
  lemma {:induction false} LeadingWhitespaceOf(lead: string, t: string)
    requires AllWhitespace(lead)
    requires t == [] || !IsWhitespace(t[0])
    ensures LeadingWhitespace(lead + t) == |lead|
  {
    if lead != [] {
      assert (lead + t)[1..] == lead[1..] + t;
      LeadingWhitespaceOf(lead[1..], t);
    } else {
      assert lead + t == t;
    }
  }

  /** Trailing whitespace behind a string that does not end with whitespace
      starts right after that string. */
  lemma {:induction false} TrailingWhitespaceOf(t: string, trail: string)
    requires AllWhitespace(trail)
    requires t == [] || !IsWhitespace(t[|t| - 1])
    ensures TrailingWhitespaceStart(t + trail) == |t|
  {
    if trail != [] {
      var n := |trail| - 1;
      assert (t + trail)[..|t + trail| - 1] == t + trail[..n];
      TrailingWhitespaceOf(t, trail[..n]);
    } else {
      assert t + trail == t;
    }
  }

  /** Reference definition of trimming: whatever trimmed middle part `m`
      sits between two runs of whitespace is the result of Trim. */
  lemma TrimUnique(lead: string, m: string, trail: string)
    requires AllWhitespace(lead) && AllWhitespace(trail) && IsTrimmed(m)
    ensures Trim(lead + m + trail) == m
  {
    var s := lead + m + trail;
    if m == [] {
      forall i | 0 <= i < |s| ensures IsWhitespace(s[i]) {
        if i < |lead| { assert s[i] == lead[i]; } else { assert s[i] == trail[i - |lead|]; }
      }
    } else {
      assert s == lead + (m + trail);
      LeadingWhitespaceOf(lead, m + trail);
      assert s[|lead|..] == m + trail;
      TrailingWhitespaceOf(m, trail);
    }
  }

  /** Trimming twice is trimming once. */
  lemma TrimIdempotent(s: string)
    ensures Trim(Trim(s)) == Trim(s)
  {
  }
}
