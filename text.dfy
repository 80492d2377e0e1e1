/** The JavaScript string primitives the app relies on (`indexOf`,
    `startsWith`, `endsWith`, `split`, number formatting), stated over
    `seq<char>`. Korean syllables are single UTF-16 code units, so one
    `char` stands for one JavaScript string index. */
module Text {

  predicate StartsWith(s: string, p: string) {
    |p| <= |s| && s[..|p|] == p
  }

  predicate EndsWith(s: string, p: string) {
    |p| <= |s| && s[|s| - |p|..] == p
  }

  /** `p` occurs in `s` starting at index `i`. */
  predicate OccursAt(s: string, p: string, i: int) {
    0 <= i && i + |p| <= |s| && s[i..i + |p|] == p
  }

  /** `s.indexOf(p, from)`: an index at or after `from` where `p` occurs,
      or -1; `IndexOfFromFirst` shows it is the first such index. */
  function IndexOfFrom(s: string, p: string, from: nat): (r: int)
    requires from <= |s|
    ensures r == -1 || (from <= r && OccursAt(s, p, r))
    decreases |s| - from
  {
    if OccursAt(s, p, from) then from
    else if from == |s| then -1
    else IndexOfFrom(s, p, from + 1)
  }

  /** `indexOf` misses no earlier occurrence, and returns -1 only when
      there is none. */
  lemma {:induction false} IndexOfFromFirst(s: string, p: string, from: nat)
    requires from <= |s|
    ensures IndexOfFrom(s, p, from) == -1 ==> forall j :: from <= j ==> !OccursAt(s, p, j)
    ensures IndexOfFrom(s, p, from) != -1 ==> forall j :: from <= j < IndexOfFrom(s, p, from) ==> !OccursAt(s, p, j)
    decreases |s| - from
  {
    if !OccursAt(s, p, from) && from < |s| {
      IndexOfFromFirst(s, p, from + 1);
    }
  }

  /** `s.indexOf(p)`. */
  function IndexOf(s: string, p: string): (r: int)
    ensures r == -1 || OccursAt(s, p, r)
  {
    IndexOfFrom(s, p, 0)
  }

  lemma IndexOfFirst(s: string, p: string)
    ensures IndexOf(s, p) == -1 <==> forall j :: !OccursAt(s, p, j)
    ensures IndexOf(s, p) != -1 ==> forall j :: 0 <= j < IndexOf(s, p) ==> !OccursAt(s, p, j)
  {
    IndexOfFromFirst(s, p, 0);
  }

  /** Once the first occurrence is known, `IndexOf` is pinned down. */
  lemma IndexOfIs(s: string, p: string, i: nat)
    requires OccursAt(s, p, i)
    requires forall j :: 0 <= j < i ==> !OccursAt(s, p, j)
    ensures IndexOf(s, p) == i
  {
    IndexOfFromFirst(s, p, 0);
  }

  /** `indexOf` steps over a position that does not hold the pattern's
      first character. */
  lemma IndexOfFromSkip(s: string, p: string, from: nat)
    requires from < |s| && |p| > 0 && s[from] != p[0]
    ensures IndexOfFrom(s, p, from) == IndexOfFrom(s, p, from + 1)
  {
    if from + |p| <= |s| {
      assert s[from..from + |p|][0] == s[from];
    }
  }

  /** `indexOf` of a non-empty pattern from the end of the string. */
  lemma IndexOfFromEnd(s: string, p: string)
    requires |p| > 0
    ensures IndexOfFrom(s, p, |s|) == -1
  {
  }

  /** Occurrence of a prefix-extended pattern implies occurrence of the prefix. */
  lemma OccursAtPrefix(s: string, a: string, b: string, i: int)
    requires OccursAt(s, a + b, i)
    ensures OccursAt(s, a, i)
  {
    assert s[i..i + |a|] == (a + b)[..|a|];
  }

  lemma OccursAtSplit(s: string, i: nat, n: nat)
    requires i + n <= |s|
    ensures OccursAt(s, s[i..i + n], i)
    ensures s[..i] + s[i..i + n] + s[i + n..] == s
  {
  }

  predicate IsDigit(c: char) {
    '0' <= c <= '9'
  }

  predicate AllDigits(s: string) {
    forall k :: 0 <= k < |s| ==> IsDigit(s[k])
  }

  function DigitChar(d: nat): (c: char)
    requires d < 10
    ensures IsDigit(c) && (c as int) - ('0' as int) == d
  {
    (('0' as int) + d) as char
  }

  /** Decimal rendering of a natural number, as `${n}` prints it. */
  function NatToString(n: nat): (r: string)
    ensures |r| > 0 && AllDigits(r)
    ensures r[0] == '0' ==> n == 0
  {
    if n < 10 then [DigitChar(n)]
    else NatToString(n / 10) + [DigitChar(n % 10)]
  }

  /** The value of a non-empty string of decimal digits. */
  function DigitsValue(s: string): nat
    requires |s| > 0 && AllDigits(s)
  {
    if |s| == 1 then (s[0] as int) - ('0' as int)
    else DigitsValue(s[..|s| - 1]) * 10 + ((s[|s| - 1] as int) - ('0' as int))
  }

  /** Reading back a rendered number yields the number. */
  lemma {:induction false} DigitsValueOfNatToString(n: nat)
    ensures DigitsValue(NatToString(n)) == n
  {
    if n >= 10 {
      var s := NatToString(n);
      assert s[..|s| - 1] == NatToString(n / 10);
      DigitsValueOfNatToString(n / 10);
    }
  }

  lemma NatToStringInjective(a: nat, b: nat)
    requires NatToString(a) == NatToString(b)
    ensures a == b
  {
    DigitsValueOfNatToString(a);
    DigitsValueOfNatToString(b);
  }

  /** `${i}` for an integer. */
  function IntToString(i: int): (r: string)
    ensures i >= 0 ==> r == NatToString(i)
    ensures i < 0 ==> r == "-" + NatToString(-i)
  {
    if i < 0 then "-" + NatToString(-i) else NatToString(i)
  }

  /** Index of the first character of `s` that is not a digit, or `|s|`. */
  function DigitRunLength(s: string): (n: nat)
    ensures n <= |s|
  {
    if s == [] || !IsDigit(s[0]) then 0 else 1 + DigitRunLength(s[1..])
  }

  lemma {:induction false} DigitRunOfJoined(x: string, sep: char, rest: string)
    requires AllDigits(x) && !IsDigit(sep)
    ensures DigitRunLength(x + [sep] + rest) == |x|
  {
    if x != [] {
      assert (x + [sep] + rest)[1..] == x[1..] + [sep] + rest;
      DigitRunOfJoined(x[1..], sep, rest);
    }
  }

  lemma JoinedDigitsSplit(x: string, p: string, y: string, q: string, sep: char)
    requires AllDigits(x) && AllDigits(y) && !IsDigit(sep)
    requires x + [sep] + p == y + [sep] + q
    ensures x == y && p == q
  {
    var s := x + [sep] + p;
    DigitRunOfJoined(x, sep, p);
    DigitRunOfJoined(y, sep, q);
    assert |x| == |y|;
    assert x == s[..|x|];
    assert p == s[|x| + 1..];
  }

  /** Two numbers joined by a separator that is not a digit can be told
      apart again: the separator's position fixes where the first ends. */
  lemma JoinedNumbersInjective(a: nat, b: nat, c: nat, d: nat, sep: char)
    requires !IsDigit(sep)
    requires NatToString(a) + [sep] + NatToString(b) == NatToString(c) + [sep] + NatToString(d)
    ensures a == c && b == d
  {
    JoinedDigitsSplit(NatToString(a), NatToString(b), NatToString(c), NatToString(d), sep);
    NatToStringInjective(a, c);
    NatToStringInjective(b, d);
  }

  /** `s.split(c)` for a one-character separator: the pieces between
      separators, always at least one. */
  function Split(s: string, c: char): (r: seq<string>)
    ensures |r| > 0
    decreases |s|
  {
    if s == [] then [[]]
    else
      var rest := Split(s[1..], c);
      if s[0] == c then [[]] + rest else [[s[0]] + rest[0]] + rest[1..]
  }

  /** A piece free of the separator is split off whole. */
  lemma {:induction false} SplitPiece(a: string, c: char, b: string)
    requires c !in a
    ensures Split(a + [c] + b, c) == [a] + Split(b, c)
  {
    if a == [] {
      assert a + [c] + b == [c] + b;
      assert ([c] + b)[1..] == b;
    } else {
      assert (a + [c] + b)[1..] == a[1..] + [c] + b;
      SplitPiece(a[1..], c, b);
      assert [a[0]] + a[1..] == a;
    }
  }

  lemma {:induction false} SplitWhole(a: string, c: char)
    requires c !in a
    ensures Split(a, c) == [a]
  {
    if a != [] {
      SplitWhole(a[1..], c);
      assert [a[0]] + a[1..] == a;
    }
  }
}
