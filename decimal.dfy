/**
 * Decimal rendering and parsing as the Java client uses it:
 * `String.valueOf(int)`, `String.format("%08d", n)` for non-negative `n`, and
 * `Integer.parseInt` / `Integer.valueOf` restricted to ASCII digits.
 */
module Decimal {
  import opened Wrappers

  const MinInt32: int := -0x8000_0000
  const MaxInt32: int := 0x7FFF_FFFF

  predicate InInt32(n: int) {
    MinInt32 <= n <= MaxInt32
  }

  predicate IsDigit(c: char) {
    '0' <= c <= '9'
  }

  predicate AllDigits(s: string) {
    forall i :: 0 <= i < |s| ==> IsDigit(s[i])
  }

  function DigitChar(d: nat): (c: char)
    requires d < 10
    ensures IsDigit(c) && c as int - '0' as int == d
  {
    ('0' as int + d) as char
  }

  /** The shortest decimal representation of `n` (no leading zeros, "0" for zero). */
  function Digits(n: nat): (s: string)
    ensures |s| > 0 && AllDigits(s)
    ensures |s| > 1 ==> s[0] != '0'
    decreases n
  {
    if n < 10 then [DigitChar(n)] else Digits(n / 10) + [DigitChar(n % 10)]
  }

  /** The number a string of decimal digits denotes; leading zeros are allowed. */
  function Value(s: string): nat
    requires AllDigits(s)
  {
    if s == [] then 0 else Value(s[..|s| - 1]) * 10 + (s[|s| - 1] as int - '0' as int)
  }

  function Zeros(k: nat): (s: string)
    ensures |s| == k && AllDigits(s)
  {
    if k == 0 then "" else "0" + Zeros(k - 1)
  }

  /** `String.format("%08d", n)`: at least eight digits, zero-padded on the left. */
  function Pad8(n: nat): (s: string)
    ensures |s| >= 8 && AllDigits(s)
  {
    var d := Digits(n);
    if |d| < 8 then Zeros(8 - |d|) + d else d
  }

  /** `String.valueOf(n)` for an int. */
  function Show(n: int): (s: string)
    ensures |s| > 0
  {
    if n < 0 then "-" + Digits(-n) else Digits(n)
  }

  /**
   * `Integer.parseInt(s)`: an optional sign followed by at least one digit, and a
   * value that fits in 32 bits; anything else is a NumberFormatException (None).
   */
  function ParseInt(s: string): (r: Option<int>)
    ensures r.Some? ==> InInt32(r.value)
    ensures r.Some? ==> |s| > 0 && (IsDigit(s[0]) || s[0] == '-' || s[0] == '+')
  {
    if |s| == 0 then None
    else if s[0] == '-' || s[0] == '+' then
      if |s| == 1 || !AllDigits(s[1..]) then None
      else
        var v: int := if s[0] == '-' then -(Value(s[1..]) as int) else Value(s[1..]);
        if InInt32(v) then Some(v) else None
    else if !AllDigits(s) then None
    else if InInt32(Value(s)) then Some(Value(s)) else None
  }

  lemma {:induction false} ValueOfDigits(n: nat)
    ensures Value(Digits(n)) == n
    decreases n
  {
    if n >= 10 {
      var d := Digits(n / 10);
      var s := d + [DigitChar(n % 10)];
      assert s[..|s| - 1] == d;
      ValueOfDigits(n / 10);
    }
  }

  lemma {:induction false} ValueOfZeros(k: nat)
    ensures Value(Zeros(k)) == 0
  {
    if k > 0 {
      var z := Zeros(k);
      assert z[..k - 1] == Zeros(k - 1) by {
        if k > 1 {
          ZerosSplit(k - 1);
        }
      }
      ValueOfZeros(k - 1);
    }
  }

  lemma {:induction false} ZerosSplit(k: nat)
    requires k > 0
    ensures Zeros(k + 1)[..k] == Zeros(k) && Zeros(k + 1)[k] == '0'
  {
    if k > 1 {
      ZerosSplit(k - 1);
    }
  }

  lemma {:induction false} ValueLeadingZeros(k: nat, s: string)
    requires AllDigits(s)
    ensures Value(Zeros(k) + s) == Value(s)
    decreases |s|
  {
    var t := Zeros(k) + s;
    if s == [] {
      assert t == Zeros(k);
      ValueOfZeros(k);
    } else {
      assert t[..|t| - 1] == Zeros(k) + s[..|s| - 1];
      ValueLeadingZeros(k, s[..|s| - 1]);
    }
  }

  /** Parsing a zero-padded rendering gives the number back. */
  lemma Pad8Value(n: nat)
    ensures Value(Pad8(n)) == n
  {
    ValueOfDigits(n);
    if |Digits(n)| < 8 {
      ValueLeadingZeros(8 - |Digits(n)|, Digits(n));
    }
  }

  /** Distinct numbers have distinct zero-padded renderings. */
  lemma Pad8Injective(a: nat, b: nat)
    ensures Pad8(a) == Pad8(b) <==> a == b
  {
    Pad8Value(a);
    Pad8Value(b);
  }

  lemma {:induction false} DigitsLength(n: nat, k: nat, bound: nat)
    requires bound == Pow10(k) && n < bound
    ensures |Digits(n)| <= if k == 0 then 1 else k
    decreases k
  {
    if n >= 10 {
      assert Pow10(0) == 1 && Pow10(1) == 10;
      DigitsLength(n / 10, k - 1, Pow10(k - 1));
    }
  }

  function Pow10(k: nat): (p: nat)
    ensures p >= 1
  {
    if k == 0 then 1 else 10 * Pow10(k - 1)
  }

  /** Below 10^8 the rendering is exactly eight characters wide. */
  lemma Pad8Width(n: nat)
    requires n < 100000000
    ensures |Pad8(n)| == 8
  {
    assert Pow10(8) == 100000000;
    DigitsLength(n, 8, Pow10(8));
  }

  /** `Integer.parseInt(String.valueOf(n)) == n` for every 32-bit `n`. */
  lemma ParseShow(n: int)
    requires InInt32(n)
    ensures ParseInt(Show(n)) == Some(n)
  {
    if n < 0 {
      var s := Show(n);
      assert s[1..] == Digits(-n);
      ValueOfDigits(-n);
    } else {
      ValueOfDigits(n);
    }
  }

  /** The texts `Integer.parseInt` reads as base-10 numerals: digits, optionally after one sign. */
  predicate Numeral(s: string) {
    || (|s| > 0 && AllDigits(s))
    || (|s| > 1 && (s[0] == '-' || s[0] == '+') && AllDigits(s[1..]))
  }

  /** The number a numeral denotes, its sign applied. */
  function SignedValue(s: string): int
    requires Numeral(s)
  {
    if s[0] == '-' then -(Value(s[1..]) as int)
    else if s[0] == '+' then Value(s[1..])
    else Value(s)
  }

  /**
   * `parseInt` succeeds exactly on a numeral whose value fits in 32 bits, and
   * then gives that value; every other text throws.
   */
  lemma ParseIntSpec(s: string)
    ensures ParseInt(s).Some? <==> Numeral(s) && InInt32(SignedValue(s))
    ensures ParseInt(s).Some? ==> ParseInt(s).value == SignedValue(s)
  {
    if |s| > 0 && AllDigits(s) {
      assert IsDigit(s[0]);
    }
  }

  /** A leading `+` does not change what a string of digits parses to. */
  lemma ParseIntPlusSign(s: string)
    requires AllDigits(s)
    ensures ParseInt("+" + s) == ParseInt(s)
  {
    assert ("+" + s)[1..] == s;
  }

  /** Leading zeros do not change what a non-empty string of digits parses to. */
  lemma ParseIntLeadingZeros(k: nat, s: string)
    requires |s| > 0 && AllDigits(s)
    ensures ParseInt(Zeros(k) + s) == ParseInt(s)
  {
    var t := Zeros(k) + s;
    assert AllDigits(t) by {
      assert forall i :: 0 <= i < |t| ==> t[i] == if i < k then Zeros(k)[i] else s[i - k];
    }
    assert IsDigit(t[0]) && IsDigit(s[0]);
    ValueLeadingZeros(k, s);
  }

  /** Texts `parseInt` rejects: empty, a bare sign, a stray letter. */
  lemma ParseIntRejects()
    ensures ParseInt("") == None
    ensures ParseInt("-") == None && ParseInt("+") == None
    ensures ParseInt("1a") == None && ParseInt("-x") == None
  {
    assert !IsDigit("1a"[1]);
    assert !IsDigit("-x"[1..][0]);
  }

  /** Texts `parseInt` accepts: a leading sign of either kind, leading zeros. */
  lemma ParseIntAccepts()
    ensures ParseInt("+5") == Some(5)
    ensures ParseInt("007") == Some(7)
    ensures ParseInt("-12") == Some(-12)
  {
    ParseIntPlusSign("5");
    assert "5" == Show(5);
    ParseShow(5);
    assert "007" == Zeros(2) + "7";
    ParseIntLeadingZeros(2, "7");
    assert "7" == Show(7);
    ParseShow(7);
    assert "-12" == Show(-12) by {
      assert Digits(12) == Digits(1) + ['2'];
    }
    ParseShow(-12);
  }
}
