// Decimal numerals as Python prints and reads them, plain and zero-padded: the file names
// of shards, the ranks in checkpoint paths and the steps of checkpoints are written in them.
// Different numbers have different numerals, and reading one gives back its number.

module Decimal {
  predicate IsDigit(c: char) { '0' <= c <= '9' }

  predicate AllDigits(s: string) {
    forall i :: 0 <= i < |s| ==> IsDigit(s[i])
  }

  function Digit(n: nat): char
    requires n < 10
  {
    '0' + n as char
  }

  function Print(n: nat): (s: string)
    ensures |s| > 0 && AllDigits(s)
  {
    if n < 10 then [Digit(n)] else Print(n / 10) + [Digit(n % 10)]
  }

  function Value(s: string): nat
    requires AllDigits(s)
  {
    if s == [] then 0
    else 10 * Value(s[..|s| - 1]) + (s[|s| - 1] - '0') as nat
  }

  lemma {:induction false} ReadPrint(n: nat)
    ensures Value(Print(n)) == n
  {
    if n >= 10 {
      var s := Print(n / 10) + [Digit(n % 10)];
      assert s[..|s| - 1] == Print(n / 10);
      ReadPrint(n / 10);
    } else {
      assert Print(n)[..0] == [];
    }
  }

  /** f"{n:0{width}d}" */
  function Pad(n: nat, width: nat): (s: string)
    ensures |s| > 0 && AllDigits(s)
  {
    Fill(Print(n), width)
  }

  function Fill(s: string, width: nat): (t: string)
    requires AllDigits(s)
    ensures |t| >= |s| && AllDigits(t)
    decreases width - |s|
  {
    if |s| >= width then s else Fill("0" + s, width)
  }

  lemma {:induction false} LeadingZero(s: string)
    requires AllDigits(s)
    ensures Value("0" + s) == Value(s)
  {
    var t := "0" + s;
    if s == [] {
      assert t[..0] == [];
    } else {
      assert t[..|t| - 1] == "0" + s[..|s| - 1];
      LeadingZero(s[..|s| - 1]);
    }
  }

  lemma {:induction false} FillKeepsValue(s: string, width: nat)
    requires AllDigits(s)
    ensures Value(Fill(s, width)) == Value(s)
    decreases width - |s|
  {
    if |s| < width {
      LeadingZero(s);
      FillKeepsValue("0" + s, width);
    }
  }

  /** Padding fills up to the width and never cuts. */
  lemma {:induction false} FillLength(s: string, width: nat)
    requires AllDigits(s)
    ensures |Fill(s, width)| == if |s| >= width then |s| else width
    decreases width - |s|
  {
    if |s| < width { FillLength("0" + s, width); }
  }

  /** A padded numeral has at least the width asked for, more only if the number needs it, and reads as the number. */
  lemma {:induction false} PadIs(n: nat, width: nat)
    ensures |Pad(n, width)| == if |Print(n)| >= width then |Print(n)| else width
    ensures Value(Pad(n, width)) == n
  {
    FillLength(Print(n), width);
    FillKeepsValue(Print(n), width);
    ReadPrint(n);
  }

  /** Numerals without padding have no leading zero, save zero itself. */
  lemma {:induction false} NoLeadingZero(n: nat)
    ensures Print(n)[0] == '0' <==> n == 0
  {
    if n >= 10 { NoLeadingZero(n / 10); }
  }

  /** The first digit of a numeral counts most. */
  lemma {:induction false} FourDigits(a: nat, b: nat, c: nat, d: nat)
    requires a < 10 && b < 10 && c < 10 && d < 10
    ensures Value([Digit(a), Digit(b), Digit(c), Digit(d)]) == 1000 * a + 100 * b + 10 * c + d
  {
    var s := [Digit(a), Digit(b), Digit(c), Digit(d)];
    assert s[..3] == [Digit(a), Digit(b), Digit(c)] && s[..3][..2] == [Digit(a), Digit(b)];
    assert s[..3][..2][..1] == [Digit(a)] && [Digit(a)][..0] == [];
    assert Value([Digit(a)]) == a;
    assert Value(s[..3][..2]) == 10 * a + b;
    assert Value(s[..3]) == 100 * a + 10 * b + c;
  }

  /** Padded numerals of different numbers differ, however many digits they need. */
  lemma {:induction false} PadInjective(m: nat, n: nat, width: nat)
    requires Pad(m, width) == Pad(n, width)
    ensures m == n
  {
    ReadPrint(m);
    ReadPrint(n);
    FillKeepsValue(Print(m), width);
    FillKeepsValue(Print(n), width);
  }

  function LeadingDigits(s: string): nat {
    if s == [] || !IsDigit(s[0]) then 0 else 1 + LeadingDigits(s[1..])
  }

  lemma {:induction false} LeadingDigitsOf(a: string, x: string)
    requires AllDigits(a) && (x == [] || !IsDigit(x[0]))
    ensures LeadingDigits(a + x) == |a|
  {
    if a == [] {
      assert a + x == x;
    } else {
      assert (a + x)[1..] == a[1..] + x;
      LeadingDigitsOf(a[1..], x);
    }
  }

  /** A numeral ends where the digits end. */
  lemma {:induction false} NumeralEnds(a: string, b: string, x: string, y: string)
    requires AllDigits(a) && AllDigits(b) && a + x == b + y
    requires x == [] || !IsDigit(x[0])
    requires y == [] || !IsDigit(y[0])
    ensures a == b && x == y
  {
    LeadingDigitsOf(a, x);
    LeadingDigitsOf(b, y);
    assert a == (a + x)[..|a|] && b == (b + y)[..|b|];
    assert x == (a + x)[|a|..] && y == (b + y)[|b|..];
  }
}
