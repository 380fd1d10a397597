/**
 * The Python string operations the response pipeline relies on, on `string`
 * (a sequence of Unicode code points, as a Python `str` is):
 * `str.find`, `str.rfind`, `str.strip()`, `sep.join(xs)` and `str(n)` for an `int`.
 */
module Text {
  import opened Wrappers

  // ---------------------------------------------------------------------------
  // Occurrences, find and rfind
  // ---------------------------------------------------------------------------

  /** `p` occurs in `s` starting at index `k`. */
  predicate OccursAt(s: string, p: string, k: int) {
    0 <= k && k + |p| <= |s| && s[k..k + |p|] == p
  }

  /** `p` is a substring of `s` (Python's `p in s`). */
  predicate Contains(s: string, p: string) {
    exists k :: 0 <= k <= |s| - |p| && OccursAt(s, p, k)
  }

  lemma DropFirstOccurrences(s: string, p: string)
    requires |s| > 0
    ensures forall k :: OccursAt(s[1..], p, k) ==> OccursAt(s, p, k + 1)
    ensures forall k :: 1 <= k && OccursAt(s, p, k) ==> OccursAt(s[1..], p, k - 1)
  {
    forall k | OccursAt(s[1..], p, k) ensures OccursAt(s, p, k + 1) {
      assert s[1..][k..k + |p|] == s[k + 1..k + 1 + |p|];
    }
    forall k | 1 <= k && OccursAt(s, p, k) ensures OccursAt(s[1..], p, k - 1) {
      assert s[1..][k - 1..k - 1 + |p|] == s[k..k + |p|];
    }
  }

  lemma DropLastOccurrences(s: string, p: string)
    requires |s| > 0
    ensures forall k :: OccursAt(s[..|s| - 1], p, k) ==> OccursAt(s, p, k)
    ensures forall k :: OccursAt(s, p, k) && k + |p| < |s| ==> OccursAt(s[..|s| - 1], p, k)
  {
    forall k | OccursAt(s[..|s| - 1], p, k) ensures OccursAt(s, p, k) {
      assert s[..|s| - 1][k..k + |p|] == s[k..k + |p|];
    }
    forall k | OccursAt(s, p, k) && k + |p| < |s| ensures OccursAt(s[..|s| - 1], p, k) {
      assert s[..|s| - 1][k..k + |p|] == s[k..k + |p|];
    }
  }

  /**
   * Python's `s.find(p)`: the lowest index at which `p` occurs, or -1 when it
   * does not occur at all.
   */
  function Find(s: string, p: string): (r: int)
    ensures r == -1 || OccursAt(s, p, r)
    ensures r == -1 <==> !Contains(s, p)
    ensures forall k :: 0 <= k < r ==> !OccursAt(s, p, k)
    decreases |s|
  {
    if |s| < |p| then -1
    else if s[..|p|] == p then 0
    else
      var r := Find(s[1..], p);
      DropFirstOccurrences(s, p);
      if r == -1 then -1 else r + 1
  }

  /**
   * Python's `s.rfind(p)`: the highest index at which `p` occurs, or -1 when it
   * does not occur at all.
   */
  function RFind(s: string, p: string): (r: int)
    ensures r == -1 || OccursAt(s, p, r)
    ensures r == -1 <==> !Contains(s, p)
    ensures forall k :: r < k ==> !OccursAt(s, p, k)
    decreases |s|
  {
    if |s| < |p| then -1
    else if s[|s| - |p|..] == p then |s| - |p|
    else
      DropLastOccurrences(s, p);
      RFind(s[..|s| - 1], p)
  }

  /** An occurrence of `p` at `k` spells out `p` character by character. */
  lemma OccurrenceChars(s: string, p: string, k: int)
    ensures OccursAt(s, p, k) ==> forall i :: 0 <= i < |p| ==> s[k + i] == p[i]
  {
    if OccursAt(s, p, k) {
      forall i | 0 <= i < |p| ensures s[k + i] == p[i] {
        assert s[k..k + |p|][i] == s[k + i];
      }
    }
  }

  predicate StartsWith(s: string, p: string) {
    |p| <= |s| && s[..|p|] == p
  }

  predicate EndsWith(s: string, p: string) {
    |p| <= |s| && s[|s| - |p|..] == p
  }

  /** Find returns `k` exactly when `k` is the first occurrence. */
  lemma FindIsFirst(s: string, p: string, k: int)
    requires OccursAt(s, p, k)
    requires forall j :: 0 <= j < k ==> !OccursAt(s, p, j)
    ensures Find(s, p) == k
  {
  }

  /** RFind returns `k` exactly when `k` is the last occurrence. */
  lemma RFindIsLast(s: string, p: string, k: int)
    requires OccursAt(s, p, k)
    requires forall j :: k < j ==> !OccursAt(s, p, j)
    ensures RFind(s, p) == k
  {
  }

  // ---------------------------------------------------------------------------
  // Whitespace and str.strip()
  // ---------------------------------------------------------------------------

  /**
   * The characters for which Python's `str.isspace()` holds, which are the
   * characters `str.strip()` removes when called without an argument.
   */
  predicate IsSpace(c: char) {
    || '\t' <= c <= '\r'
    || '\U{1C}' <= c <= '\U{1F}'
    || c == ' '
    || c == '\U{85}'
    || c == '\U{A0}'
    || c == '\U{1680}'
    || '\U{2000}' <= c <= '\U{200A}'
    || c == '\U{2028}'
    || c == '\U{2029}'
    || c == '\U{202F}'
    || c == '\U{205F}'
    || c == '\U{3000}'
  }

  predicate AllSpace(s: string) {
    forall i :: 0 <= i < |s| ==> IsSpace(s[i])
  }

  /** `s` does not start or end with whitespace. */
  predicate TightEdges(s: string) {
    s == [] || (!IsSpace(s[0]) && !IsSpace(s[|s| - 1]))
  }

  /** Removes the leading whitespace of `s` (Python's `s.lstrip()`). */
  function TrimStart(s: string): (r: string)
    ensures |r| <= |s| && r == s[|s| - |r|..]
    ensures AllSpace(s[..|s| - |r|])
    ensures r == [] || !IsSpace(r[0])
  {
    if |s| > 0 && IsSpace(s[0]) then
      var r := TrimStart(s[1..]);
      var rest := s[1..][..|s| - 1 - |r|];
      assert s[..|s| - |r|] == [s[0]] + rest;
      assert s[|s| - |r|..] == s[1..][|s| - 1 - |r|..];
      r
    else
      s
  }

  /** Removes the trailing whitespace of `s` (Python's `s.rstrip()`). */
  function TrimEnd(s: string): (r: string)
    ensures |r| <= |s| && r == s[..|r|]
    ensures AllSpace(s[|r|..])
    ensures r == [] || !IsSpace(r[|r| - 1])
  {
    if |s| > 0 && IsSpace(s[|s| - 1]) then
      var r := TrimEnd(s[..|s| - 1]);
      assert s[|r|..] == s[..|s| - 1][|r|..] + [s[|s| - 1]];
      r
    else
      s
  }

  /**
   * `r` is what is left of `s` once a whitespace prefix of length `i` and a
   * whitespace suffix are cut off.
   */
  predicate StrippedAt(s: string, r: string, i: int) {
    0 <= i && i + |r| <= |s| && s[i..i + |r|] == r && AllSpace(s[..i]) && AllSpace(s[i + |r|..])
  }

  /** Python's `s.strip()`. */
  function Strip(s: string): (r: string)
    ensures exists i :: StrippedAt(s, r, i)
    ensures TightEdges(r)
  {
    var t := TrimStart(s);
    var r := TrimEnd(t);
    assert StrippedAt(s, r, |s| - |t|) by {
      assert s[|s| - |t|..][..|r|] == s[|s| - |t|..|s| - |t| + |r|];
      assert s[|s| - |t| + |r|..] == t[|r|..];
    }
    r
  }

  lemma {:induction false} TrimStartOfSpaces(a: string, t: string)
    requires AllSpace(a)
    requires t == [] || !IsSpace(t[0])
    ensures TrimStart(a + t) == t
    decreases |a|
  {
    if a != [] {
      assert (a + t)[1..] == a[1..] + t;
      TrimStartOfSpaces(a[1..], t);
    }
  }

  lemma {:induction false} TrimEndOfSpaces(t: string, c: string)
    requires AllSpace(c)
    requires t == [] || !IsSpace(t[|t| - 1])
    ensures TrimEnd(t + c) == t
    decreases |c|
  {
    if c != [] {
      assert (t + c)[..|t + c| - 1] == t + c[..|c| - 1];
      TrimEndOfSpaces(t, c[..|c| - 1]);
    }
  }

  /**
   * Stripping removes exactly the surrounding whitespace: text without
   * whitespace at its edges, wrapped in whitespace, strips to itself.
   */
  lemma StripSurrounded(a: string, b: string, c: string)
    requires AllSpace(a) && AllSpace(c)
    requires TightEdges(b)
    ensures Strip(a + b + c) == b
  {
    assert a + b + c == a + (b + c);
    if b == [] {
      assert AllSpace(a + c);
      TrimStartOfSpaces(a + c, []);
      assert a + c + [] == a + b + c;
    } else {
      TrimStartOfSpaces(a, b + c);
      TrimEndOfSpaces(b, c);
    }
  }

  /** Text with no whitespace at its edges is left unchanged by Strip. */
  lemma StripTight(s: string)
    requires TightEdges(s)
    ensures Strip(s) == s
  {
    StripSurrounded([], s, []);
    assert [] + s + [] == s;
  }

  // ---------------------------------------------------------------------------
  // sep.join(xs)
  // ---------------------------------------------------------------------------

  /** Python's `sep.join(xs)`. */
  function Join(sep: string, xs: seq<string>): (r: string)
    ensures |xs| == 0 ==> r == ""
    ensures |xs| == 1 ==> r == xs[0]
  {
    if |xs| == 0 then ""
    else if |xs| == 1 then xs[0]
    else xs[0] + sep + Join(sep, xs[1..])
  }

  /** Joining two non-empty lists joins their joins: the elements keep their order. */
  lemma {:induction false} JoinAppend(sep: string, xs: seq<string>, ys: seq<string>)
    requires |xs| > 0 && |ys| > 0
    ensures Join(sep, xs + ys) == Join(sep, xs) + sep + Join(sep, ys)
    decreases |xs|
  {
    if |xs| == 1 {
      assert (xs + ys)[1..] == ys;
    } else {
      assert (xs + ys)[1..] == xs[1..] + ys;
      JoinAppend(sep, xs[1..], ys);
    }
  }

  /** The length of a join: every element once, and one separator between neighbours. */
  function TotalLength(xs: seq<string>): nat {
    if xs == [] then 0 else |xs[0]| + TotalLength(xs[1..])
  }

  lemma {:induction false} JoinLength(sep: string, xs: seq<string>)
    requires |xs| > 0
    ensures |Join(sep, xs)| == TotalLength(xs) + (|xs| - 1) * |sep|
    decreases |xs|
  {
    if |xs| > 1 {
      JoinLength(sep, xs[1..]);
    } else {
      assert xs[1..] == [];
    }
  }

  // ---------------------------------------------------------------------------
  // str(n) for an int, and its inverse
  // ---------------------------------------------------------------------------

  predicate IsDigit(c: char) { '0' <= c <= '9' }

  function DigitChar(d: nat): (c: char)
    requires d < 10
    ensures IsDigit(c) && (c as int) - ('0' as int) == d
  {
    (('0' as int) + d) as char
  }

  /** The decimal digits of `n`, most significant first, without leading zeros. */
  function NatToString(n: nat): (r: string)
    ensures |r| > 0
    ensures forall i :: 0 <= i < |r| ==> IsDigit(r[i])
    ensures r[0] == '0' ==> n == 0
  {
    if n < 10 then [DigitChar(n)] else NatToString(n / 10) + [DigitChar(n % 10)]
  }

  /** Python's `str(n)` for an `int`: a minus sign before the digits of a negative number. */
  function IntToString(n: int): string {
    if n < 0 then "-" + NatToString(-n) else NatToString(n)
  }

  /** The value of a string of decimal digits. */
  function DigitsValue(s: string): nat
    requires forall i :: 0 <= i < |s| ==> IsDigit(s[i])
  {
    if s == [] then 0
    else
      assert IsDigit(s[|s| - 1]);
      DigitsValue(s[..|s| - 1]) * 10 + ((s[|s| - 1] as int) - ('0' as int))
  }

  /** Reads back a decimal integer as written by IntToString; None for anything else. */
  function ParseDecimal(s: string): (r: Option<int>)
    ensures r.Some? ==> |s| > 0
  {
    if |s| > 0 && s[0] == '-' then
      var d := s[1..];
      if |d| > 0 && (forall i :: 0 <= i < |d| ==> IsDigit(d[i])) then Some(-(DigitsValue(d) as int)) else None
    else if |s| > 0 && (forall i :: 0 <= i < |s| ==> IsDigit(s[i])) then Some(DigitsValue(s) as int)
    else None
  }

  lemma {:induction false} NatToStringValue(n: nat)
    ensures DigitsValue(NatToString(n)) == n
    decreases n
  {
    if n >= 10 {
      var r := NatToString(n);
      assert r[..|r| - 1] == NatToString(n / 10);
      NatToStringValue(n / 10);
    }
  }

  /** IntToString and ParseDecimal are inverse: `int(str(n)) == n`. */
  lemma IntToStringRoundTrip(n: int)
    ensures ParseDecimal(IntToString(n)) == Some(n)
  {
    if n < 0 {
      NatToStringValue(-n);
      assert ("-" + NatToString(-n))[1..] == NatToString(-n);
    } else {
      NatToStringValue(n);
    }
  }

  /** Distinct integers are printed differently. */
  lemma IntToStringInjective(a: int, b: int)
    requires IntToString(a) == IntToString(b)
    ensures a == b
  {
    IntToStringRoundTrip(a);
    IntToStringRoundTrip(b);
  }

  // ---------------------------------------------------------------------------
  // Substrings of concatenations
  // ---------------------------------------------------------------------------

  lemma ContainsMiddle(a: string, t: string, b: string)
    ensures Contains(a + t + b, t)
  {
    assert (a + t + b)[|a|..|a| + |t|] == t;
    assert OccursAt(a + t + b, t, |a|);
  }

  /** An occurrence inside `b` is an occurrence inside any text that embeds `b`. */
  lemma ContainsWithin(a: string, b: string, c: string, t: string)
    requires Contains(b, t)
    ensures Contains(a + b + c, t)
  {
    var k :| 0 <= k <= |b| - |t| && OccursAt(b, t, k);
    assert (a + b + c)[|a| + k..|a| + k + |t|] == b[k..k + |t|];
    assert OccursAt(a + b + c, t, |a| + k);
  }

  /** A join begins with its first element. */
  lemma JoinStartsWithFirst(sep: string, xs: seq<string>)
    requires |xs| > 0
    ensures StartsWith(Join(sep, xs), xs[0])
  {
    if |xs| > 1 {
      assert Join(sep, xs)[..|xs[0]|] == xs[0];
    }
  }

  lemma ContainsBefore(a: string, b: string, t: string)
    requires Contains(a, t)
    ensures Contains(a + b, t)
  {
    ContainsWithin("", a, b, t);
    assert "" + a + b == a + b;
  }

  lemma ContainsAfter(a: string, b: string, t: string)
    requires Contains(b, t)
    ensures Contains(a + b, t)
  {
    ContainsWithin(a, b, "", t);
    assert a + b + "" == a + b;
  }

  /** A text that contains `t + u` contains `t`. */
  lemma ContainsHead(s: string, t: string, u: string)
    requires Contains(s, t + u)
    ensures Contains(s, t)
  {
    var k :| 0 <= k <= |s| - |t + u| && OccursAt(s, t + u, k);
    assert s[k..k + |t|] == (t + u)[..|t|];
    assert OccursAt(s, t, k);
  }
}
