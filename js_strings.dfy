/**
 * JavaScript's `String.prototype.trim`: it removes every leading and
 * trailing character that ECMAScript counts as white space or as a line
 * terminator.
 */
module JsStrings {

  /**
   * ECMAScript's WhiteSpace (tab, vertical tab, form feed, space, no-break
   * space, byte order mark and the Unicode space separators) and
   * LineTerminator (line feed, carriage return, line and paragraph separator).
   */
  predicate IsTrimmable(c: char)
  {
    || c == '\t' || c == '\n' || c == '\U{000B}' || c == '\U{000C}' || c == '\r'
    || c == ' ' || c == '\U{00A0}' || c == '\U{1680}'
    || ('\U{2000}' <= c <= '\U{200A}')
    || c == '\U{2028}' || c == '\U{2029}' || c == '\U{202F}' || c == '\U{205F}'
    || c == '\U{3000}' || c == '\U{FEFF}'
  }

  predicate AllTrimmable(s: string)
  {
    forall k :: 0 <= k < |s| ==> IsTrimmable(s[k])
  }

  /** A string that `trim` leaves as it is: empty, or without white space at either end. */
  predicate IsTrimmed(s: string)
  {
    s == [] || (!IsTrimmable(s[0]) && !IsTrimmable(s[|s| - 1]))
  }

  /** The length of the longest all-white-space prefix of `s`. */
  function LeadingCount(s: string): (n: nat)
    ensures n <= |s|
    ensures AllTrimmable(s[..n])
    ensures n < |s| ==> !IsTrimmable(s[n])
  {
    if s == [] || !IsTrimmable(s[0]) then 0 else 1 + LeadingCount(s[1..])
  }

  /** The length of the longest all-white-space suffix of `s`. */
  function TrailingCount(s: string): (n: nat)
    ensures n <= |s|
    ensures AllTrimmable(s[|s| - n..])
    ensures n < |s| ==> !IsTrimmable(s[|s| - 1 - n])
  {
    if s == [] || !IsTrimmable(s[|s| - 1]) then 0 else 1 + TrailingCount(s[..|s| - 1])
  }

  /** `s.trim()`. */
  function Trim(s: string): (r: string)
    ensures IsTrimmed(r)
    ensures |r| <= |s|
  {
    var rest := s[LeadingCount(s)..];
    rest[..|rest| - TrailingCount(rest)]
  }

  lemma {:induction false} LeadingCountUnique(s: string, n: nat)
    requires n <= |s| && AllTrimmable(s[..n])
    requires n < |s| ==> !IsTrimmable(s[n])
    ensures LeadingCount(s) == n
  {
    if n > 0 {
      assert s[1..][..n - 1] == s[1..n];
      assert IsTrimmable(s[..n][0]);
      LeadingCountUnique(s[1..], n - 1);
    }
  }

  lemma {:induction false} TrailingCountUnique(s: string, n: nat)
    requires n <= |s| && AllTrimmable(s[|s| - n..])
    requires n < |s| ==> !IsTrimmable(s[|s| - 1 - n])
    ensures TrailingCount(s) == n
  {
    if n > 0 {
      var t := s[..|s| - 1];
      assert t[|t| - (n - 1)..] == s[|s| - n..|s| - 1];
      assert IsTrimmable(s[|s| - n..][n - 1]);
      TrailingCountUnique(t, n - 1);
    }
  }

  /**
   * `trim` is characterised by its result: whatever white space surrounds a
   * trimmed string, trimming gives back exactly that string.
   */
  lemma TrimUnique(p: string, r: string, q: string)
    requires AllTrimmable(p) && AllTrimmable(q) && IsTrimmed(r)
    ensures Trim(p + r + q) == r
  {
    var s := p + r + q;
    if r == [] {
      assert s == p + q;
      assert AllTrimmable(s[..|s|]);
      LeadingCountUnique(s, |s|);
    } else {
      assert s[..|p|] == p;
      assert s[|p|] == r[0];
      LeadingCountUnique(s, |p|);
      var rest := s[|p|..];
      assert rest == r + q;
      assert rest[|rest| - |q|..] == q;
      assert rest[|rest| - 1 - |q|] == r[|r| - 1];
      TrailingCountUnique(rest, |q|);
      assert rest[..|rest| - |q|] == r;
    }
  }

  /** The white space `trim` removes in front. */
  function TrimmedPrefix(s: string): string
  {
    s[..LeadingCount(s)]
  }

  /** The white space `trim` removes at the end. */
  function TrimmedSuffix(s: string): string
  {
    var rest := s[LeadingCount(s)..];
    rest[|rest| - TrailingCount(rest)..]
  }

  /** Every string is its trimmed form between two runs of white space. */
  lemma TrimSplits(s: string)
    ensures AllTrimmable(TrimmedPrefix(s)) && AllTrimmable(TrimmedSuffix(s))
    ensures s == TrimmedPrefix(s) + Trim(s) + TrimmedSuffix(s)
  {
    var rest := s[LeadingCount(s)..];
    assert rest == Trim(s) + TrimmedSuffix(s);
  }

  lemma AllTrimmableConcat(a: string, b: string)
    requires AllTrimmable(a) && AllTrimmable(b)
    ensures AllTrimmable(a + b)
  {
    forall k | 0 <= k < |a + b| ensures IsTrimmable((a + b)[k]) {
      if k >= |a| {
        assert (a + b)[k] == b[k - |a|];
      }
    }
  }

  lemma Regroup(p: string, a: string, b: string, c: string, q: string)
    ensures p + (a + b + c) + q == (p + a) + b + (c + q)
  {
  }

  /** Extra white space around a string does not change what `trim` returns. */
  lemma TrimIgnoresPadding(p: string, s: string, q: string)
    requires AllTrimmable(p) && AllTrimmable(q)
    ensures Trim(p + s + q) == Trim(s)
  {
    TrimSplits(s);
    var p', q' := TrimmedPrefix(s), TrimmedSuffix(s);
    Regroup(p, p', Trim(s), q', q);
    AllTrimmableConcat(p, p');
    AllTrimmableConcat(q', q);
    TrimUnique(p + p', Trim(s), q' + q);
  }

  /** Trimming twice is trimming once. */
  lemma TrimIdempotent(s: string)
    ensures Trim(Trim(s)) == Trim(s)
  {
    TrimUnique([], Trim(s), []);
    assert [] + Trim(s) + [] == Trim(s);
  }
}
