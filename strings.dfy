// The Python string builtins the core leans on: startswith, replace with an
// empty replacement, split, rsplit with a limit, str() of an int and int() of
// a string, and the ordering of str by `<`.

module Strings {
  import opened Exceptions

  predicate StartsWith(s: string, prefix: string)
  {
    |prefix| <= |s| && s[..|prefix|] == prefix
  }

  /** s.replace(pat, ""): every occurrence, left to right, without overlap. */
  function ReplaceAll(s: string, pat: string): (r: string)
    requires |pat| > 0
    ensures |r| <= |s|
    decreases |s|
  {
    if |s| == 0 then s
    else if StartsWith(s, pat) then ReplaceAll(s[|pat|..], pat)
    else [s[0]] + ReplaceAll(s[1..], pat)
  }

  predicate Occurs(s: string, pat: string)
  {
    exists j :: 0 <= j <= |s| && StartsWith(s[j..], pat)
  }

  lemma {:induction false} ReplaceAbsent(s: string, pat: string)
    requires |pat| > 0 && !Occurs(s, pat)
    ensures ReplaceAll(s, pat) == s
    decreases |s|
  {
    if |s| > 0 {
      assert s[0..] == s;
      assert !StartsWith(s, pat);
      forall j | 0 <= j <= |s[1..]|
        ensures !StartsWith(s[1..][j..], pat)
      {
        assert s[1..][j..] == s[j + 1..];
      }
      ReplaceAbsent(s[1..], pat);
    }
  }

  lemma ReplaceLeading(pat: string, t: string)
    requires |pat| > 0
    ensures ReplaceAll(pat + t, pat) == ReplaceAll(t, pat)
  {
    assert (pat + t)[..|pat|] == pat;
    assert (pat + t)[|pat|..] == t;
  }

  function IndexOf(s: string, c: char): (r: Option<nat>)
    ensures r.Some? ==> r.value < |s| && s[r.value] == c && c !in s[..r.value]
    ensures r.None? <==> c !in s
  {
    if |s| == 0 then None
    else if s[0] == c then Some(0)
    else match IndexOf(s[1..], c)
      case None => None
      case Some(i) => assert s[1..][..i] == s[1..i + 1]; Some(i + 1)
  }

  function LastIndexOf(s: string, c: char): (r: Option<nat>)
    ensures r.Some? ==> r.value < |s| && s[r.value] == c && c !in s[r.value + 1..]
    ensures r.None? <==> c !in s
  {
    if |s| == 0 then None
    else if s[|s| - 1] == c then Some(|s| - 1)
    else
      var r := LastIndexOf(s[..|s| - 1], c);
      assert forall i :: 0 <= i < |s| - 1 ==> s[..|s| - 1][i] == s[i];
      r
  }

  /** s.split(sep): at least one part, none containing the separator. */
  function Split(s: string, sep: char): (r: seq<string>)
    ensures |r| >= 1
    ensures forall i :: 0 <= i < |r| ==> sep !in r[i]
    decreases |s|
  {
    match IndexOf(s, sep)
    case None => [s]
    case Some(i) => [s[..i]] + Split(s[i + 1..], sep)
  }

  lemma SplitJoin(a: string, sep: char, b: string)
    requires sep !in a
    ensures Split(a + [sep] + b, sep) == [a] + Split(b, sep)
  {
    var s := a + [sep] + b;
    assert s[|a|] == sep;
    assert s[..|a|] == a;
    assert IndexOf(s, sep) == Some(|a|);
    assert s[|a| + 1..] == b;
  }

  lemma SplitNone(a: string, sep: char)
    requires sep !in a
    ensures Split(a, sep) == [a]
  {
  }

  /** s.rsplit(sep, maxsplit): at most maxsplit + 1 parts, cut from the right. */
  function RSplit(s: string, sep: char, maxsplit: nat): (r: seq<string>)
    ensures 1 <= |r| <= maxsplit + 1
  {
    if maxsplit == 0 then [s]
    else match LastIndexOf(s, sep)
      case None => [s]
      case Some(i) => RSplit(s[..i], sep, maxsplit - 1) + [s[i + 1..]]
  }

  lemma RSplitJoin(a: string, sep: char, b: string, maxsplit: nat)
    requires sep !in b && maxsplit > 0
    ensures RSplit(a + [sep] + b, sep, maxsplit) == RSplit(a, sep, maxsplit - 1) + [b]
  {
    var s := a + [sep] + b;
    assert s[|a|] == sep;
    assert s[|a| + 1..] == b;
    assert s[..|a|] == a;
    var i := LastIndexOf(s, sep);
    assert i == Some(|a|);
  }

  lemma RSplitNone(a: string, sep: char, maxsplit: nat)
    requires sep !in a
    ensures RSplit(a, sep, maxsplit) == [a]
  {
  }

  /** The last part of an rsplit does not depend on maxsplit, once it is
      positive: it is the text after the last separator, or all of it. */
  lemma RSplitLast(s: string, sep: char, m: nat, n: nat)
    requires m > 0 && n > 0
    ensures var a, b := RSplit(s, sep, m), RSplit(s, sep, n); a[|a| - 1] == b[|b| - 1]
    ensures var a := RSplit(s, sep, m);
      a[|a| - 1] == if sep in s then s[LastIndexOf(s, sep).value + 1..] else s
  {
  }

  predicate IsDigit(c: char)
  {
    '0' <= c <= '9'
  }

  function DigitChar(d: nat): (c: char)
    requires d < 10
    ensures IsDigit(c)
  {
    "0123456789"[d]
  }

  function DigitValue(c: char): nat
    requires IsDigit(c)
  {
    (c as int - '0' as int) as nat
  }

  lemma DigitRoundTrip(d: nat)
    requires d < 10
    ensures DigitValue(DigitChar(d)) == d
  {
  }

  /** str(n) for a natural number: decimal, no leading zero. */
  function NatToString(n: nat): (r: string)
    ensures |r| >= 1 && forall i :: 0 <= i < |r| ==> IsDigit(r[i])
  {
    if n < 10 then [DigitChar(n)] else NatToString(n / 10) + [DigitChar(n % 10)]
  }

  function IntToString(i: int): (r: string)
    ensures |r| >= 1 && '.' !in r
  {
    if i < 0 then "-" + NatToString(-i) else NatToString(i)
  }

  predicate AllDigits(s: string)
  {
    forall i :: 0 <= i < |s| ==> IsDigit(s[i])
  }

  function DigitsValue(s: string): nat
    requires AllDigits(s)
  {
    if |s| == 0 then 0 else DigitsValue(s[..|s| - 1]) * 10 + DigitValue(s[|s| - 1])
  }

  /** int(s) for an optional sign followed by decimal digits; None where
      Python raises ValueError. */
  function ParseInt(s: string): (r: Option<int>)
  {
    if |s| > 0 && (s[0] == '-' || s[0] == '+') then
      if |s| > 1 && AllDigits(s[1..]) then
        var magnitude: int := DigitsValue(s[1..]);
        Some(if s[0] == '-' then -magnitude else magnitude)
      else None
    else if |s| > 0 && AllDigits(s) then Some(DigitsValue(s))
    else None
  }

  lemma {:induction false} NatRoundTrip(n: nat)
    ensures DigitsValue(NatToString(n)) == n
  {
    var s := NatToString(n);
    if n >= 10 {
      NatRoundTrip(n / 10);
      assert s[..|s| - 1] == NatToString(n / 10);
      DigitRoundTrip(n % 10);
    } else {
      DigitRoundTrip(n);
      assert s[..0] == [];
    }
  }

  /** int(str(i)) == i. */
  lemma IntRoundTrip(i: int)
    ensures ParseInt(IntToString(i)) == Some(i)
  {
    var s := IntToString(i);
    if i < 0 {
      var digits := NatToString(-i);
      assert s == "-" + digits;
      assert s[1..] == digits;
      NatRoundTrip(-i);
    } else {
      var digits := NatToString(i);
      assert s == digits;
      assert IsDigit(s[0]);
      NatRoundTrip(i);
    }
  }

  /** A text without a digit is never a number: "", a lone sign and any
      other digit-free text all raise ValueError. */
  lemma ParseIntNeedsDigit(s: string)
    requires forall i :: 0 <= i < |s| ==> !IsDigit(s[i])
    ensures ParseInt(s) == None
  {
    if |s| > 1 {
      assert s[1..][0] == s[1];
    }
  }

  /** Python's `a < b` on str: the first differing character decides, by
      code point, and a proper prefix comes before the longer text. */
  predicate Less(a: string, b: string)
    decreases |a|
  {
    if a == [] then b != []
    else if b == [] then false
    else if a[0] != b[0] then a[0] < b[0]
    else Less(a[1..], b[1..])
  }

  /** `a <= b` on str. */
  predicate LessEq(a: string, b: string)
  {
    a == b || Less(a, b)
  }

  /** Two texts are equal or ordered one way, never both ways. */
  lemma {:induction false} LessTotal(a: string, b: string)
    ensures a == b || Less(a, b) || Less(b, a)
    ensures !(Less(a, b) && Less(b, a)) && !Less(a, a)
    decreases |a|
  {
    if a != [] && b != [] && a[0] == b[0] {
      LessTotal(a[1..], b[1..]);
      if a[1..] == b[1..] {
        assert a == [a[0]] + a[1..] && b == [b[0]] + b[1..];
      }
    } else if a != [] {
      LessTotal(a[1..], a[1..]);
    }
  }

  lemma {:induction false} LessTransitive(a: string, b: string, c: string)
    requires Less(a, b) && Less(b, c)
    ensures Less(a, c)
    decreases |a|
  {
    if a != [] && a[0] == b[0] && b[0] == c[0] {
      LessTransitive(a[1..], b[1..], c[1..]);
    }
  }

  /** A text followed by more text comes after it. */
  lemma {:induction false} PrefixComesFirst(a: string, t: string)
    requires t != []
    ensures Less(a, a + t)
    decreases |a|
  {
    if a != [] {
      assert (a + t)[0] == a[0] && (a + t)[1..] == a[1..] + t;
      PrefixComesFirst(a[1..], t);
    }
  }

  /** The first differing character decides, whatever follows it. */
  lemma {:induction false} FirstDifferenceDecides(p: string, x: char, y: char, s: string, t: string)
    requires x < y
    ensures Less(p + [x] + s, p + [y] + t)
    decreases |p|
  {
    var a, b := p + [x] + s, p + [y] + t;
    if p == [] {
      assert a[0] == x && b[0] == y;
    } else {
      assert a[0] == p[0] && b[0] == p[0];
      assert a[1..] == p[1..] + [x] + s && b[1..] == p[1..] + [y] + t;
      FirstDifferenceDecides(p[1..], x, y, s, t);
    }
  }
}
