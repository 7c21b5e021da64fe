/** Token estimates and the truncation of text to a token limit. */
module TokenEstimate {

  function AsciiCount(s: string): (n: nat)
    ensures n <= |s|
  {
    if s == "" then 0 else AsciiCount(s[..|s| - 1]) + if s[|s| - 1] < 128 as char then 1 else 0
  }

  /** Four ASCII characters to a token, rounded up; any other character is one token. */
  function Estimate(s: string): nat {
    (AsciiCount(s) + 3) / 4 + (|s| - AsciiCount(s))
  }

  lemma {:induction false} AsciiConcat(a: string, b: string)
    ensures AsciiCount(a + b) == AsciiCount(a) + AsciiCount(b)
  {
    if b == "" {
      assert a + b == a;
    } else {
      assert (a + b)[..|a + b| - 1] == a + b[..|b| - 1];
      AsciiConcat(a, b[..|b| - 1]);
    }
  }

  /** A longer prefix never costs less. */
  lemma EstimateMonotone(s: string, i: nat, j: nat)
    requires i <= j <= |s|
    ensures Estimate(s[..i]) <= Estimate(s[..j])
  {
    assert s[..j] == s[..i] + s[i..j];
    AsciiConcat(s[..i], s[i..j]);
  }

  /** Joining texts costs at most their sum, and at most one token less. */
  lemma EstimateConcat(a: string, b: string)
    ensures Estimate(a) + Estimate(b) - 1 <= Estimate(a + b) <= Estimate(a) + Estimate(b)
  {
    AsciiConcat(a, b);
  }

  /** Only the numbers of ASCII and of other characters matter: a token for up to four of the
      former, and one for each of the latter. */
  lemma EstimateSplits(s: string, ascii: string, others: string)
    requires forall i :: 0 <= i < |ascii| ==> ascii[i] < 128 as char
    requires forall i :: 0 <= i < |others| ==> others[i] >= 128 as char
    requires |s| == |ascii| + |others| && AsciiCount(s) == |ascii|
    ensures Estimate(s) == Estimate(ascii) + Estimate(others)
    ensures 4 * Estimate(ascii) - 3 <= |ascii| <= 4 * Estimate(ascii) && Estimate(others) == |others|
  {
    AllAscii(ascii);
    NoAscii(others);
  }

  lemma {:induction false} NoAscii(s: string)
    requires forall i :: 0 <= i < |s| ==> s[i] >= 128 as char
    ensures AsciiCount(s) == 0
  {
    if s != "" { NoAscii(s[..|s| - 1]); }
  }

  const MARKER := "\n[...truncated by conversation policy...]"

  lemma MarkerIsAscii()
    ensures |MARKER| == 41 && AsciiCount(MARKER) == 41 && Estimate(MARKER) == 11
  {
    AllAscii(MARKER);
  }

  lemma {:induction false} AllAscii(s: string)
    requires forall i :: 0 <= i < |s| ==> s[i] < 128 as char
    ensures AsciiCount(s) == |s|
  {
    if s != "" { AllAscii(s[..|s| - 1]); }
  }

  /** `n` is the length of the longest prefix within the limit. */
  ghost predicate LongestWithin(s: string, limit: int, n: nat) {
    && n <= |s| && Estimate(s[..n]) <= limit
    && forall k :: 0 <= k <= |s| && Estimate(s[..k]) <= limit ==> k <= n
  }

  method LongestPrefix(s: string, limit: nat) returns (n: nat)
    ensures LongestWithin(s, limit, n)
  {
    var low, high := 0, |s|;
    while low < high
      invariant 0 <= low <= high <= |s|
      invariant Estimate(s[..low]) <= limit
      invariant forall k :: high < k <= |s| ==> Estimate(s[..k]) > limit
      decreases high - low
    {
      var middle := (low + high + 1) / 2;
      if Estimate(s[..middle]) <= limit {
        low := middle;
      } else {
        forall k | middle <= k <= |s| ensures Estimate(s[..k]) > limit {
          EstimateMonotone(s, middle, k);
        }
        high := middle - 1;
      }
    }
    n := low;
  }

  /** The whole text if it fits; otherwise the longest prefix that leaves room for the
      marker, and the marker; with too little room, a prefix of the marker alone. */
  ghost predicate Truncation(s: string, limit: int, text: string, truncated: bool) {
    && truncated == (Estimate(s) > limit)
    && (!truncated ==> text == s)
    && (limit >= 0 ==> Estimate(text) <= limit)
    && (truncated && limit <= 0 ==> text == "")
    && (truncated && 0 < limit <= 11 ==> exists n: nat :: LongestWithin(MARKER, limit, n) && text == MARKER[..n])
    && (truncated && 11 < limit ==> exists n: nat :: LongestWithin(s, limit - 11, n) && text == s[..n] + MARKER)
  }

  method TruncateTokens(s: string, limit: int) returns (text: string, truncated: bool)
    ensures Truncation(s, limit, text, truncated)
  {
    MarkerIsAscii();
    if Estimate(s) <= limit { return s, false; }
    if limit <= 0 { return "", true; }
    if Estimate(MARKER) >= limit {
      var n := LongestPrefix(MARKER, limit);
      return MARKER[..n], true;
    }
    var n := LongestPrefix(s, limit - Estimate(MARKER));
    EstimateConcat(s[..n], MARKER);
    return s[..n] + MARKER, true;
  }

  /** Rounding the two parts apart can cost the reader up to three characters, never more:
      no prefix longer by four would fit with the marker. */
  lemma TruncationIsNearlyLongest(s: string, limit: int, n: nat, m: nat)
    requires 11 < limit < Estimate(s) && LongestWithin(s, limit - 11, n)
    requires n < m <= |s| && Estimate(s[..m] + MARKER) <= limit
    ensures m <= n + 3
  {
    MarkerIsAscii();
    AsciiConcat(s[..m], MARKER);
    assert Estimate(s[..n + 1]) > limit - 11;
    assert s[..m] == s[..n + 1] + s[n + 1..m];
    AsciiConcat(s[..n + 1], s[n + 1..m]);
  }

  /** Exactly when a longer prefix would still fit with the marker: when the next character is
      ASCII, or the ASCII characters kept do not fill their last token. */
  lemma TruncationLosesIff(s: string, limit: int, n: nat)
    requires 11 < limit < Estimate(s) && LongestWithin(s, limit - 11, n)
    ensures n < |s|
    ensures (exists m :: n < m <= |s| && Estimate(s[..m] + MARKER) <= limit) <==>
              s[n] < 128 as char || AsciiCount(s[..n]) % 4 != 0
  {
    assert s[..|s|] == s;
    OneMoreFitsIff(s, limit, n);
    if m :| n < m <= |s| && Estimate(s[..m] + MARKER) <= limit { MarkedMonotone(s, n + 1, m); }
  }

  lemma MarkedMonotone(s: string, i: nat, j: nat)
    requires i <= j <= |s|
    ensures Estimate(s[..i] + MARKER) <= Estimate(s[..j] + MARKER)
  {
    AsciiConcat(s[..i], MARKER);
    AsciiConcat(s[..j], MARKER);
    assert s[..j] == s[..i] + s[i..j];
    AsciiConcat(s[..i], s[i..j]);
  }

  lemma OneMoreFitsIff(s: string, limit: int, n: nat)
    requires 11 < limit && n < |s| && LongestWithin(s, limit - 11, n)
    ensures Estimate(s[..n + 1] + MARKER) <= limit <==> s[n] < 128 as char || AsciiCount(s[..n]) % 4 != 0
  {
    MarkerIsAscii();
    NextPrefix(s, n);
    AsciiConcat(s[..n + 1], MARKER);
    assert Estimate(s[..n + 1]) > limit - 11;
  }

  lemma NextPrefix(s: string, n: nat)
    requires n < |s|
    ensures AsciiCount(s[..n + 1]) == AsciiCount(s[..n]) + if s[n] < 128 as char then 1 else 0
  {
    assert s[..n + 1][..n] == s[..n];
  }

  /** With the default summary limit an ASCII summary of 3201 characters or more is cut to 3156,
      though 3159 would fit. */
  lemma TruncationCanLose(s: string)
    requires |s| >= 3201 && AsciiCount(s) == |s|
    ensures Estimate(s) > 800 && LongestWithin(s, 800 - 11, 3156) && Estimate(s[..3159] + MARKER) <= 800
  {
    MarkerIsAscii();
    AsciiPrefix(s, 3159);
    AsciiConcat(s[..3159], MARKER);
    AsciiPrefix(s, 3156);
    AsciiPrefix(s, 3157);
    forall k | 3157 <= k <= |s| ensures Estimate(s[..k]) > 789 {
      EstimateMonotone(s, 3157, k);
    }
  }

  lemma AsciiPrefix(s: string, n: nat)
    requires n <= |s| && AsciiCount(s) == |s|
    ensures AsciiCount(s[..n]) == n
  {
    assert s == s[..n] + s[n..];
    AsciiConcat(s[..n], s[n..]);
  }
}
