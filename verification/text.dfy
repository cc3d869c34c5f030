/** The Python `str` operations the application relies on: `sub in s`,
    `s.split(sep)`, `s.strip()`, `s.lower()`, `s.endswith(x)` and the decimal
    rendering of a count in an f-string. */
module Text {
  import opened Optional

  /* ---------------------------------------------------------------------
     Substring search
     --------------------------------------------------------------------- */

  /** `sub` occurs in `s` starting at index `i`. */
  predicate OccursAt(s: string, sub: string, i: int)
  {
    0 <= i && i + |sub| <= |s| && s[i..i + |sub|] == sub
  }

  /** The first index at or after `from` where `sub` occurs in `s`. */
  function IndexFrom(s: string, sub: string, from: nat): (r: Option<nat>)
    ensures r.Some? ==> from <= r.value && r.value + |sub| <= |s|
    decreases |s| - from
  {
    if from + |sub| > |s| then None
    else if s[from..from + |sub|] == sub then Some(from)
    else IndexFrom(s, sub, from + 1)
  }

  /** The search finds an occurrence, and no earlier one; or there is none
      at or after `from`. */
  lemma {:induction false} IndexFromSpec(s: string, sub: string, from: nat)
    ensures var r := IndexFrom(s, sub, from);
      && (r.Some? ==> OccursAt(s, sub, r.value))
      && (r.Some? ==> forall k :: from <= k < r.value ==> !OccursAt(s, sub, k))
      && (r.None? ==> forall k :: from <= k ==> !OccursAt(s, sub, k))
    decreases |s| - from
  {
    if from + |sub| <= |s| && s[from..from + |sub|] != sub {
      IndexFromSpec(s, sub, from + 1);
    }
  }

  /** `s.find(sub)`, with `None` for -1. */
  function IndexOf(s: string, sub: string): (r: Option<nat>)
    ensures r.Some? ==> r.value + |sub| <= |s|
  {
    IndexFrom(s, sub, 0)
  }

  /** `s.find(sub)` is the first occurrence of `sub`. */
  lemma IndexOfSpec(s: string, sub: string)
    ensures var r := IndexOf(s, sub);
      && (r.Some? ==> OccursAt(s, sub, r.value))
      && (r.Some? ==> forall k :: 0 <= k < r.value ==> !OccursAt(s, sub, k))
      && (r.None? ==> forall k :: 0 <= k ==> !OccursAt(s, sub, k))
  {
    IndexFromSpec(s, sub, 0);
  }

  /** Python's `sub in s`. */
  predicate Contains(s: string, sub: string)
  {
    IndexOf(s, sub).Some?
  }

  lemma ContainsIff(s: string, sub: string)
    ensures Contains(s, sub) <==> exists k :: OccursAt(s, sub, k)
  {
    IndexOfSpec(s, sub);
  }

  /** An occurrence inside a slice is an occurrence in the whole string. */
  lemma OccursInSlice(s: string, lo: nat, hi: nat, sub: string, k: int)
    requires lo <= hi <= |s|
    requires OccursAt(s[lo..hi], sub, k)
    ensures OccursAt(s, sub, lo + k)
  {
    var t := s[lo..hi];
    var a, b := s[lo + k..lo + k + |sub|], t[k..k + |sub|];
    assert |a| == |b|;
    forall m | 0 <= m < |sub|
      ensures a[m] == b[m]
    {
      assert a[m] == s[lo + k + m];
      assert b[m] == t[k + m];
    }
    assert a == b;
  }

  /** Slicing never introduces a substring the whole string lacks. */
  lemma SliceLacks(s: string, lo: nat, hi: nat, sub: string)
    requires lo <= hi <= |s|
    requires !Contains(s, sub)
    ensures !Contains(s[lo..hi], sub)
  {
    if Contains(s[lo..hi], sub) {
      IndexOfSpec(s[lo..hi], sub);
      var k := IndexOf(s[lo..hi], sub).value;
      OccursInSlice(s, lo, hi, sub, k);
      ContainsIff(s, sub);
      assert false;
    }
  }

  /** A string containing `long` contains every prefix of `long`. */
  lemma ContainsPrefixOf(s: string, long: string, short: string)
    requires |short| <= |long| && long[..|short|] == short
    requires Contains(s, long)
    ensures Contains(s, short)
  {
    IndexOfSpec(s, long);
    var k := IndexOf(s, long).value;
    assert s[k..k + |short|] == long[..|short|];
    assert OccursAt(s, short, k);
    ContainsIff(s, short);
  }

  /* ---------------------------------------------------------------------
     Splitting: `s.split(sep)`
     --------------------------------------------------------------------- */

  /** `s.split(sep)[0]`: the text before the first `sep`, or all of `s`. */
  function Before(s: string, sep: string): (r: string)
    requires |sep| > 0
    ensures |r| <= |s| && r == s[..|r|]
    ensures !Contains(r, sep)
    ensures !Contains(s, sep) ==> r == s
  {
    match IndexOf(s, sep)
    case None => s
    case Some(i) =>
      PrefixBeforeFirstLacks(s, sep, i);
      s[..i]
  }

  /** The text before the first occurrence of `sep` does not contain `sep`. */
  lemma PrefixBeforeFirstLacks(s: string, sep: string, i: nat)
    requires |sep| > 0 && IndexOf(s, sep) == Some(i)
    ensures !Contains(s[..i], sep)
  {
    IndexOfSpec(s, sep);
    if Contains(s[..i], sep) {
      IndexOfSpec(s[..i], sep);
      var k := IndexOf(s[..i], sep).value;
      assert s[..i] == s[0..i];
      OccursInSlice(s, 0, i, sep, k);
      assert false;
    }
  }

  /** The text after the first `sep`. */
  function After(s: string, sep: string): (r: string)
    requires Contains(s, sep)
  {
    s[IndexOf(s, sep).value + |sep|..]
  }

  /** Python's `s.split(sep)` for a non-empty separator. */
  function Split(s: string, sep: string): (r: seq<string>)
    requires |sep| > 0
    ensures |r| >= 1
    decreases |s|
  {
    match IndexOf(s, sep)
    case None => [s]
    case Some(i) => [s[..i]] + Split(s[i + |sep|..], sep)
  }

  /** The first piece is the text before the first `sep`; there is a second
      piece exactly when `sep` occurs, and it is the text between the first
      and the second `sep`. */
  lemma {:induction false} SplitPieces(s: string, sep: string)
    requires |sep| > 0
    ensures var r := Split(s, sep);
      && r[0] == Before(s, sep)
      && (|r| >= 2 <==> Contains(s, sep))
      && (Contains(s, sep) ==> r[1] == Before(After(s, sep), sep))
  {
    match IndexOf(s, sep)
    case None =>
    case Some(i) =>
      SplitPieces(s[i + |sep|..], sep);
  }

  /* ---------------------------------------------------------------------
     Whitespace stripping: `s.strip()`
     --------------------------------------------------------------------- */

  /** Python's `c.isspace()`. */
  predicate IsSpace(c: char)
  {
    || ('\U{9}' <= c <= '\U{D}')
    || ('\U{1C}' <= c <= '\U{20}')
    || c == '\U{85}' || c == '\U{A0}' || c == '\U{1680}'
    || ('\U{2000}' <= c <= '\U{200A}')
    || c == '\U{2028}' || c == '\U{2029}' || c == '\U{202F}'
    || c == '\U{205F}' || c == '\U{3000}'
  }

  function LStrip(s: string): (r: string)
    ensures |r| <= |s| && r == s[|s| - |r|..]
    ensures |r| > 0 ==> !IsSpace(r[0])
    ensures forall k :: 0 <= k < |s| - |r| ==> IsSpace(s[k])
    decreases |s|
  {
    if |s| > 0 && IsSpace(s[0]) then LStrip(s[1..]) else s
  }

  function RStrip(s: string): (r: string)
    ensures |r| <= |s| && r == s[..|r|]
    ensures |r| > 0 ==> !IsSpace(r[|r| - 1])
    ensures forall k :: |r| <= k < |s| ==> IsSpace(s[k])
    decreases |s|
  {
    if |s| > 0 && IsSpace(s[|s| - 1]) then RStrip(s[..|s| - 1]) else s
  }

  /** `r` is `s[a..b]`, and everything outside it is whitespace. */
  predicate Trimmed(s: string, r: string, a: int, b: int)
  {
    && 0 <= a <= b <= |s| && r == s[a..b]
    && (forall i :: 0 <= i < a ==> IsSpace(s[i]))
    && (forall i :: b <= i < |s| ==> IsSpace(s[i]))
  }

  /** Trimming the front and then the back of what is left trims `s`. */
  lemma StripTrims(s: string, a: nat, l: string, r: string)
    requires a <= |s| && l == s[a..] && |r| <= |l| && r == l[..|r|]
    requires forall i :: 0 <= i < a ==> IsSpace(s[i])
    requires forall k :: |r| <= k < |l| ==> IsSpace(l[k])
    ensures Trimmed(s, r, a, a + |r|)
  {
    forall i | a + |r| <= i < |s|
      ensures IsSpace(s[i])
    {
      assert s[i] == l[i - a];
    }
  }

  /** Python's `s.strip()`: drops leading and trailing whitespace only. */
  function Strip(s: string): (r: string)
    ensures |r| <= |s|
    ensures |r| > 0 ==> !IsSpace(r[0]) && !IsSpace(r[|r| - 1])
    ensures forall sub :: !Contains(s, sub) ==> !Contains(r, sub)
    ensures exists a, b :: Trimmed(s, r, a, b)
  {
    var l := LStrip(s);
    var r := RStrip(l);
    StripTrims(s, |s| - |l|, l, r);
    forall sub | !Contains(s, sub)
      ensures !Contains(r, sub)
    {
      SliceLacks(s, |s| - |l|, |s|, sub);
      assert s[|s| - |l|..|s|] == l;
      SliceLacks(l, 0, |r|, sub);
      assert l[0..|r|] == r;
    }
    r
  }

  /** A string with no surrounding whitespace is its own strip. */
  lemma StripFixedPoint(s: string)
    requires |s| > 0 ==> !IsSpace(s[0]) && !IsSpace(s[|s| - 1])
    ensures Strip(s) == s
  {
  }

  lemma StripIdempotent(s: string)
    ensures Strip(Strip(s)) == Strip(s)
  {
    StripFixedPoint(Strip(s));
  }

  /* ---------------------------------------------------------------------
     Case folding, suffixes, decimal rendering
     --------------------------------------------------------------------- */

  /** `c.lower()` for ASCII letters; every other character is kept. */
  function LowerChar(c: char): char
  {
    if 'A' <= c <= 'Z' then (c as int - 'A' as int + 'a' as int) as char else c
  }

  function Lower(s: string): (r: string)
    ensures |r| == |s|
    ensures forall i :: 0 <= i < |s| ==> r[i] == LowerChar(s[i])
  {
    seq(|s|, i requires 0 <= i < |s| => LowerChar(s[i]))
  }

  /** Python's `s.startswith(prefix)`. */
  predicate StartsWith(s: string, prefix: string)
  {
    |prefix| <= |s| && s[..|prefix|] == prefix
  }

  /** Python's `s.endswith(suffix)`. */
  predicate EndsWith(s: string, suffix: string)
  {
    |suffix| <= |s| && s[|s| - |suffix|..] == suffix
  }

  /** A concatenation starts with its first part and ends with its second. */
  lemma ConcatEnds(a: string, b: string)
    ensures StartsWith(a + b, a) && EndsWith(a + b, b)
  {
    assert (a + b)[..|a|] == a;
    assert (a + b)[|a + b| - |b|..] == b;
  }

  function DigitChar(d: nat): (c: char)
    requires d < 10
    ensures '0' <= c <= '9'
  {
    (d + '0' as int) as char
  }

  function DigitValue(c: char): nat
  {
    if '0' <= c <= '9' then c as int - '0' as int else 0
  }

  /** `f"{n}"` for a non-negative integer. */
  function NatToString(n: nat): (r: string)
    ensures |r| >= 1
    ensures forall i :: 0 <= i < |r| ==> '0' <= r[i] <= '9'
    decreases n
  {
    if n < 10 then [DigitChar(n)] else NatToString(n / 10) + [DigitChar(n % 10)]
  }

  /** The value of a string of decimal digits, `int(s)`. */
  function DigitsValue(s: string): nat
    decreases |s|
  {
    if |s| == 0 then 0 else 10 * DigitsValue(s[..|s| - 1]) + DigitValue(s[|s| - 1])
  }

  /** Reading back a rendered count gives the count. */
  lemma {:induction false} NatToStringRoundTrip(n: nat)
    ensures DigitsValue(NatToString(n)) == n
  {
    var r := NatToString(n);
    if n < 10 {
      assert r[..|r| - 1] == [];
    } else {
      NatToStringRoundTrip(n / 10);
      assert r[..|r| - 1] == NatToString(n / 10);
    }
  }
}
