// Decimal notation as a value: what the printer writes and what the parser reads.
module Decimal {

  const UINT64_MAX: int := 0xffff_ffff_ffff_ffff
  const UINT32_MAX: int := 0xffff_ffff

  predicate IsDigit(c: char) {
    '0' <= c <= '9'
  }

  function Digit(c: char): (d: nat)
    requires IsDigit(c)
    ensures d < 10
  {
    c as int - '0' as int
  }

  function DigitChar(d: nat): (c: char)
    requires d < 10
    ensures IsDigit(c) && Digit(c) == d
  {
    (d + '0' as int) as char
  }

  predicate AllDigits(s: string) {
    forall k :: 0 <= k < |s| ==> IsDigit(s[k])
  }

  function Value(s: string): nat
    requires AllDigits(s)
    decreases |s|
  {
    if s == [] then 0 else Value(s[..|s| - 1]) * 10 + Digit(s[|s| - 1])
  }

  /** The shortest decimal notation. */
  function Notation(n: nat): (s: string)
    ensures s != [] && AllDigits(s)
    decreases n
  {
    if n < 10 then [DigitChar(n)] else Notation(n / 10) + [DigitChar(n % 10)]
  }

  /** Without leading zeros, but keeping the last digit. */
  function Stripped(s: string): string {
    if |s| > 1 && s[0] == '0' then Stripped(s[1..]) else s
  }

  function Limit(isU32: bool): int {
    if isU32 then UINT32_MAX else UINT64_MAX
  }

  /** The strings the parser accepts. */
  ghost predicate Accepted(s: string, isU32: bool) {
    s != [] && AllDigits(s) && Value(s) <= Limit(isU32)
  }

  lemma {:induction false} PrefixIsSmaller(s: string, k: nat)
    requires AllDigits(s) && k <= |s|
    ensures Value(s[..k]) <= Value(s)
    decreases |s|
  {
    if k == |s| {
      assert s[..k] == s;
    } else {
      var m := |s| - 1;
      assert s[..m][..k] == s[..k];
      PrefixIsSmaller(s[..m], k);
    }
  }

  /** Printing and reading back gives the number. */
  lemma {:induction false} ValueOfNotation(n: nat)
    ensures Value(Notation(n)) == n
    decreases n
  {
    if n >= 10 {
      ValueOfNotation(n / 10);
      var s := Notation(n);
      assert s[..|s| - 1] == Notation(n / 10);
    } else {
      assert Notation(n)[..0] == [];
    }
  }

  /** The notation is canonical: only zero begins with a zero. */
  lemma {:induction false} NotationIsCanonical(n: nat)
    ensures Notation(n)[0] == '0' <==> n == 0
    ensures Notation(n) == ['0'] <==> n == 0
    decreases n
  {
    if n >= 10 { NotationIsCanonical(n / 10); }
  }

  lemma {:induction false} StrippedSnoc(s: string, c: char)
    requires s != []
    ensures Stripped(s) != []
    ensures Stripped(s + [c]) == if Stripped(s) == ['0'] then [c] else Stripped(s) + [c]
    decreases |s|
  {
    assert (s + [c])[1..] == s[1..] + [c];
    if s[0] == '0' && |s| > 1 {
      StrippedSnoc(s[1..], c);
    } else if s[0] == '0' {
      assert s == ['0'];
      assert (s + [c])[1..] == [c];
    }
  }

  /** Reading and printing gives the string back without its leading zeros. */
  lemma {:induction false} NotationOfValue(s: string)
    requires s != [] && AllDigits(s)
    ensures Notation(Value(s)) == Stripped(s)
    decreases |s|
  {
    var k := |s| - 1;
    var t, d := s[..k], Digit(s[k]);
    assert s == t + [s[k]];
    if t == [] {
      assert Value(t) == 0;
    } else {
      NotationOfValue(t);
      StrippedSnoc(t, s[k]);
      NotationIsCanonical(Value(t));
      assert Value(s) / 10 == Value(t) && Value(s) % 10 == d;
    }
  }

  // ------------------------------------------------------------------ what digits mean

  function Power(base: nat, k: nat): nat {
    if k == 0 then 1 else base * Power(base, k - 1)
  }

  /** Each digit counts for its rank among the digits, times a power of ten. */
  function Positional(s: string): nat
    requires AllDigits(s)
  {
    if s == [] then 0 else Digit(s[0]) * Power(10, |s| - 1) + Positional(s[1..])
  }

  lemma TenTimes(d: nat, p: nat)
    ensures d * (10 * p) == d * p * 10
  {
  }

  lemma {:induction false} PositionalSnoc(s: string, c: char)
    requires AllDigits(s) && IsDigit(c)
    ensures Positional(s + [c]) == Positional(s) * 10 + Digit(c)
    decreases |s|
  {
    if s == [] {
      assert ([] + [c])[1..] == [];
      assert Power(10, 0) == 1;
    } else {
      assert (s + [c])[1..] == s[1..] + [c] && (s + [c])[0] == s[0];
      PositionalSnoc(s[1..], c);
      TenTimes(Digit(s[0]), Power(10, |s| - 1));
    }
  }

  /** The value built up digit by digit is the positional one. */
  lemma {:induction false} ValueIsPositional(s: string)
    requires AllDigits(s)
    ensures Value(s) == Positional(s)
    decreases |s|
  {
    if s != [] {
      var k := |s| - 1;
      ValueIsPositional(s[..k]);
      PositionalSnoc(s[..k], s[k]);
      assert s == s[..k] + [s[k]];
    }
  }

  lemma DigitIsRank(c: char)
    requires IsDigit(c)
    ensures "0123456789"[Digit(c)] == c
  {
  }

  /** The limits are those of 32 and 64 bits. */
  lemma LimitsAreWidths()
    ensures Limit(true) + 1 == Power(2, 32) && Limit(false) + 1 == Power(2, 64)
  {
    assert Power(2, 8) == 0x100;
    assert Power(2, 16) == 0x1_0000;
    assert Power(2, 24) == 0x100_0000;
    assert Power(2, 32) == 0x1_0000_0000;
    assert Power(2, 40) == 0x100_0000_0000;
    assert Power(2, 48) == 0x1_0000_0000_0000;
    assert Power(2, 56) == 0x100_0000_0000_0000;
  }

  /** Every number that fits is accepted in its notation and comes back unchanged; every
      accepted string denotes such a number and is its notation up to leading zeros. */
  lemma PrintedAndParsed(n: nat, s: string, isU32: bool)
    ensures Accepted(Notation(n), isU32) <==> n <= Limit(isU32)
    ensures Value(Notation(n)) == n
    ensures Accepted(s, isU32) ==> Notation(Value(s)) == Stripped(s)
  {
    ValueOfNotation(n);
    if Accepted(s, isU32) { NotationOfValue(s); }
  }

  // --------------------------------------------------------------------- log lines

  /** One line of output. */
  function LineText(time: nat, id: nat, message: string): string {
    Notation(time) + [' '] + Notation(id) + [' '] + message + ['\n']
  }

  lemma FirstSpaceSplits(a: string, x: string, b: string, y: string)
    requires AllDigits(a) && AllDigits(b) && a + [' '] + x == b + [' '] + y
    ensures a == b && x == y
  {
    var s := a + [' '] + x;
    assert forall k :: 0 <= k < |a| ==> IsDigit(s[k]) by { assert s[..|a|] == a; }
    assert forall k :: 0 <= k < |b| ==> IsDigit(s[k]) by { assert s[..|b|] == b; }
    assert s[|a|] == ' ' && s[|b|] == ' ';
    assert a == s[..|a|] == b;
    assert x == s[|a| + 1..] == y;
  }

  /** A line determines its time, coder and message. */
  lemma LineIsUnambiguous(t: nat, i: nat, m: string, u: nat, j: nat, k: string)
    requires LineText(t, i, m) == LineText(u, j, k)
    ensures t == u && i == j && m == k
  {
    var x, y := Notation(i) + [' '] + m + ['\n'], Notation(j) + [' '] + k + ['\n'];
    assert LineText(t, i, m) == Notation(t) + [' '] + x;
    assert LineText(u, j, k) == Notation(u) + [' '] + y;
    FirstSpaceSplits(Notation(t), x, Notation(u), y);
    assert x == Notation(i) + [' '] + (m + ['\n']) && y == Notation(j) + [' '] + (k + ['\n']);
    FirstSpaceSplits(Notation(i), m + ['\n'], Notation(j), k + ['\n']);
    assert m == (m + ['\n'])[..|m|] && k == (k + ['\n'])[..|k|];
    ValueOfNotation(t); ValueOfNotation(u); ValueOfNotation(i); ValueOfNotation(j);
  }
}
