/** Decimal numerals, and the report's printers of them: src/tm_report.c. */
module Decimal {
  const UINT_MODULUS: nat := 0x1_0000_0000
  const INT_MAX: int := 0x7FFF_FFFF
  const INT_MIN: int := -0x8000_0000
  const ULONG_MODULUS: nat := 0x1_0000_0000_0000_0000

  function Digit(d: nat): char
    requires d < 10
  {
    '0' + d as char
  }

  predicate IsDigit(c: char) {
    '0' <= c <= '9'
  }

  function DigitValue(c: char): (d: nat)
    requires IsDigit(c)
    ensures d < 10
  {
    c as int - '0' as int
  }

  predicate AllDigits(s: string) {
    forall i | 0 <= i < |s| :: IsDigit(s[i])
  }

  /** The number a row of digits stands for. */
  function Value(s: string): nat
    requires AllDigits(s)
  {
    if s == [] then 0 else 10 * Value(s[..|s| - 1]) + DigitValue(s[|s| - 1])
  }

  /** A numeral without leading zeros. */
  predicate Canonical(s: string) {
    s != [] && AllDigits(s) && (s[0] == '0' ==> |s| == 1)
  }

  function Digits(n: nat): (s: string) {
    if n < 10 then [Digit(n)] else Digits(n / 10) + [Digit(n % 10)]
  }

  lemma {:induction false} DigitsAreCanonical(n: nat)
    ensures Canonical(Digits(n))
    ensures n > 0 ==> Digits(n)[0] != '0'
  {
    if n >= 10 {
      DigitsAreCanonical(n / 10);
    }
  }

  /** What is printed parses back to the number. */
  lemma {:induction false} ParsesBack(n: nat)
    ensures AllDigits(Digits(n)) && Value(Digits(n)) == n
  {
    DigitsAreCanonical(n);
    var s := Digits(n);
    if n >= 10 {
      ParsesBack(n / 10);
      assert s[..|s| - 1] == Digits(n / 10) && s[|s| - 1] == Digit(n % 10);
    } else {
      assert s[..|s| - 1] == [];
    }
  }

  lemma {:induction false} CanonicalIsPositive(s: string)
    requires Canonical(s) && s[0] != '0'
    ensures Value(s) > 0
  {
    if |s| > 1 {
      CanonicalIsPositive(s[..|s| - 1]);
    } else {
      assert s[..|s| - 1] == [];
    }
  }

  /** Each canonical numeral is what is printed for its number. */
  lemma {:induction false} CanonicalIsPrinted(s: string)
    requires Canonical(s)
    ensures Digits(Value(s)) == s
  {
    var t, d := s[..|s| - 1], DigitValue(s[|s| - 1]);
    assert s == t + [Digit(d)];
    if |s| > 1 {
      CanonicalIsPrinted(t);
      CanonicalIsPositive(t);
      assert Value(s) / 10 == Value(t) && Value(s) % 10 == d;
    } else {
      assert t == [];
    }
  }

  function Pow10(k: nat): nat {
    if k == 0 then 1 else 10 * Pow10(k - 1)
  }

  lemma {:induction false} DigitsBounded(n: nat, k: nat)
    requires k > 0 && n < Pow10(k)
    ensures |Digits(n)| <= k
  {
    if n >= 10 {
      assert Pow10(1) == 10;
      DigitsBounded(n / 10, k - 1);
    }
  }

  lemma UlongDigits(n: nat)
    requires n < ULONG_MODULUS
    ensures |Digits(n)| <= 20
  {
    Pow10Of20();
    DigitsBounded(n, 20);
  }

  lemma Pow10Of20()
    ensures Pow10(20) == 100_000_000_000_000_000_000
  {
    assert Pow10(5) == 100_000;
    assert Pow10(10) == 10_000_000_000;
    assert Pow10(15) == 1_000_000_000_000_000;
  }

  /** The numeral of a signed number. */
  function Signed(v: int): string {
    if v < 0 then "-" + Digits(-v) else Digits(v)
  }

  function Reversed(s: string): (r: string)
    ensures |r| == |s|
    ensures forall k :: 0 <= k < |s| ==> r[k] == s[|s| - 1 - k]
  {
    if s == [] then [] else [s[|s| - 1]] + Reversed(s[..|s| - 1])
  }

  lemma ReversedAppend(s: string, c: char)
    ensures Reversed(s + [c]) == [c] + Reversed(s)
  {
    assert (s + [c])[..|s|] == s;
  }

  /** Some numerals, spelled out. */
  lemma NumeralsSpelledOut()
    ensures Digits(0) == "0" && Digits(60) == "60" && Digits(1907) == "1907"
    ensures Digits(2147483648) == "2147483648"
    ensures Signed(60) == "60" && Signed(-5) == "-5" && Signed(-2147483648) == "-2147483648"
  {
    ShortNumerals();
    LongNumeral();
  }

  lemma ShortNumerals()
    ensures Digits(0) == "0" && Digits(5) == "5" && Digits(60) == "60" && Digits(1907) == "1907"
  {
    assert Digits(19) == "19";
    assert Digits(190) == "190";
  }

  lemma LongNumeral()
    ensures Digits(2147483648) == "2147483648"
  {
    LongNumeralBegins();
    NextDigit(21474, 8);
    NextDigit(214748, 3);
    NextDigit(2147483, 6);
    NextDigit(21474836, 4);
    NextDigit(214748364, 8);
  }

  lemma NextDigit(n: nat, d: nat)
    requires n > 0 && d < 10
    ensures Digits(10 * n + d) == Digits(n) + [Digit(d)]
  {
    assert (10 * n + d) / 10 == n && (10 * n + d) % 10 == d;
  }

  lemma LongNumeralBegins()
    ensures Digits(21474) == "21474"
  {
    assert Digits(214) == "214";
  }

  /** The digits still to be produced. */
  function Rest(v: nat): string {
    if v == 0 then [] else Digits(v)
  }

  lemma ProduceDigit(v: nat, low: string)
    requires v > 0
    ensures Rest(v / 10) + Reversed(low + [Digit(v % 10)]) == Rest(v) + Reversed(low)
    ensures |Rest(v / 10)| < |Rest(v)|
  {
    ReversedAppend(low, Digit(v % 10));
    assert Rest(v) == Rest(v / 10) + [Digit(v % 10)];
  }

  lemma UnsignedNegation(val: int)
    requires INT_MIN <= val < 0
    ensures (UINT_MODULUS - val % UINT_MODULUS) % UINT_MODULUS == -val
  {
    assert val % UINT_MODULUS == val + UINT_MODULUS;
  }

  lemma PutNext(before: string, r: string, k: nat)
    requires k < |r|
    ensures before + r[..k] + [r[k]] == before + r[..k + 1]
  {
  }

  /** Where the low-level character output puts its characters. */
  class Console {
    var out: string

    constructor ()
      ensures out == []
    {
      out := [];
    }

    method PutChar(c: char)
      modifies this
      ensures out == old(out) + [c]
    {
      out := out + [c];
    }

    /** The digits go lowest first into a buffer of 21 places, which they never
        leave, and from its end to the output. */
    method PrintUnsignedLong(val: nat)
      requires val < ULONG_MODULUS
      modifies this
      ensures out == old(out) + Digits(val)
    {
      var buf := new char[21];
      if val == 0 {
        PutChar('0');
        return;
      }
      UlongDigits(val);
      var i := FillDigits(buf, val);
      Flush(buf, i);
    }

    static method FillDigits(buf: array<char>, val: nat) returns (i: nat)
      requires val > 0 && |Digits(val)| <= buf.Length
      modifies buf
      ensures i <= buf.Length && Reversed(buf[..i]) == Digits(val)
    {
      var v := val;
      i := 0;
      while v > 0
        invariant 0 <= i <= buf.Length && 0 <= v
        invariant Digits(val) == Rest(v) + Reversed(buf[..i])
      {
        ProduceDigit(v, buf[..i]);
        ghost var low := buf[..i];
        buf[i] := Digit(v % 10);
        i := i + 1;
        assert buf[..i] == low + [Digit(v % 10)];
        v := v / 10;
      }
    }

    method Flush(buf: array<char>, n: nat)
      requires n <= buf.Length
      modifies this
      ensures out == old(out) + Reversed(buf[..n])
    {
      ghost var r, before := Reversed(buf[..n]), out;
      var i := n;
      while i > 0
        invariant 0 <= i <= n && out == before + r[..n - i]
      {
        i := i - 1;
        PutNext(before, r, n - 1 - i);
        PutChar(buf[i]);
      }
    }

    /** The negation is done in unsigned arithmetic, so that the least int is
        printed too. */
    method PrintInt(val: int)
      requires INT_MIN <= val <= INT_MAX
      modifies this
      ensures out == old(out) + Signed(val)
    {
      if val < 0 {
        PutChar('-');
        var u := val % UINT_MODULUS;
        UnsignedNegation(val);
        PrintUnsignedLong((UINT_MODULUS - u) % UINT_MODULUS);
      } else {
        PrintUnsignedLong(val);
      }
    }
  }
}
