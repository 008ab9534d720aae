/** Decimal text on the wire: the `%d` formatting the drivers use when they
    build commands, and the C library's `atoi`, `atof` and `(int)` casts they
    apply to instrument replies. Values are unbounded (`int`, `real`). */
module Numbers {

  predicate IsDigit(c: char) { '0' <= c <= '9' }

  /** C `isspace` in the "C" locale: blank, tab, newline, vertical tab, form feed, carriage return. */
  predicate IsSpace(c: char) { c == ' ' || 9 <= c as int <= 13 }

  predicate AllDigits(s: string) { forall i | 0 <= i < |s| :: IsDigit(s[i]) }

  function DigitValue(c: char): (d: nat)
    requires IsDigit(c)
    ensures d < 10
  {
    c as int - '0' as int
  }

  function DigitChar(d: nat): (c: char)
    requires d < 10
    ensures IsDigit(c) && DigitValue(c) == d
  {
    (d + '0' as int) as char
  }

  /** What is left of `s` once leading white space is skipped. */
  function SkipSpace(s: string): (t: string)
    ensures |t| <= |s|
    ensures t == [] || !IsSpace(t[0])
  {
    if s != [] && IsSpace(s[0]) then SkipSpace(s[1..]) else s
  }

  /** Length of the run of digits that starts `s`. */
  function DigitRun(s: string): (n: nat)
    ensures n <= |s| && AllDigits(s[..n])
    ensures n == |s| || !IsDigit(s[n])
  {
    if s != [] && IsDigit(s[0]) then
      assert s[..1 + DigitRun(s[1..])] == [s[0]] + s[1..][..DigitRun(s[1..])];
      1 + DigitRun(s[1..])
    else 0
  }

  /** The value of a string of decimal digits, most significant first. */
  function DigitsValue(ds: string): nat
    requires AllDigits(ds)
  {
    if ds == [] then 0 else 10 * DigitsValue(ds[..|ds| - 1]) + DigitValue(ds[|ds| - 1])
  }

  /** The value of the digits that start `s` (0 when there are none). */
  function LeadingNumber(s: string): nat
  {
    DigitsValue(s[..DigitRun(s)])
  }

  /** `%d` of a non-negative value: no sign, no leading zeros. */
  function NatToString(n: nat): (s: string)
    ensures s != [] && AllDigits(s)
    ensures |s| > 1 ==> s[0] != '0'
  {
    if n < 10 then [DigitChar(n)] else NatToString(n / 10) + [DigitChar(n % 10)]
  }

  /** `%d`: a minus sign in front of negative values. */
  function IntToString(i: int): (s: string)
    ensures s != [] && (s[0] == '-' || IsDigit(s[0]))
    ensures i >= 0 <==> IsDigit(s[0])
  {
    if i < 0 then "-" + NatToString(-i) else NatToString(i)
  }

  /** `atoi`: optional white space, an optional sign, then the longest run
      of digits; 0 when no digit follows. */
  function AtoI(s: string): int
  {
    var t := SkipSpace(s);
    if t != [] && (t[0] == '-' || t[0] == '+') then
      (if t[0] == '-' then 0 - LeadingNumber(t[1..]) else LeadingNumber(t[1..]) as int)
    else LeadingNumber(t)
  }

  function Pow10(n: nat): (p: nat)
    ensures p >= 1
  {
    if n == 0 then 1 else 10 * Pow10(n - 1)
  }

  /** Ten to the power `e`, for either sign of `e`. */
  function Scale(e: int): (r: real)
    ensures r > 0.0
  {
    if e >= 0 then Pow10(e) as real else 1.0 / Pow10(-e) as real
  }

  /** `x` shifted by `e` decimal places: `x` times ten to the `e`, one
      place at a time. */
  function ScaleBy(x: real, e: int): (r: real)
    ensures x > 0.0 ==> r > 0.0
  {
    if e >= 0 then ShiftUp(x, e) else ShiftDown(x, -e)
  }

  /** `x` shifted `n` places to the left. */
  function ShiftUp(x: real, n: nat): (r: real)
    ensures x > 0.0 ==> r > 0.0
  {
    if n == 0 then x else 10.0 * ShiftUp(x, n - 1)
  }

  /** `x` shifted `n` places to the right. */
  function ShiftDown(x: real, n: nat): (r: real)
    ensures x > 0.0 ==> r > 0.0
  {
    if n == 0 then x else ShiftDown(x, n - 1) / 10.0
  }

  /** The exponent part `e<digits>` / `E<sign><digits>` that may end a
      decimal number; 0 when there is none. */
  function Exponent(s: string): int
  {
    if s != [] && (s[0] == 'e' || s[0] == 'E') then
      var t := s[1..];
      if t != [] && (t[0] == '-' || t[0] == '+') then
        (if t[0] == '-' then 0 - LeadingNumber(t[1..]) else LeadingNumber(t[1..]) as int)
      else LeadingNumber(t)
    else 0
  }

  /** The value of the fraction digits `fd`, read after a decimal point. */
  function Fraction(fd: string): real
    requires AllDigits(fd)
  {
    if fd == [] then 0.0 else (DigitValue(fd[0]) as real + Fraction(fd[1..])) / 10.0
  }

  /** The value of integer digits `ip`, fraction digits `fd` and exponent `e`. */
  function Decimal(ip: string, fd: string, e: int): real
    requires AllDigits(ip) && AllDigits(fd)
  {
    ScaleBy(DigitsValue(ip) as real + Fraction(fd), e)
  }

  /** An unsigned decimal: digits, an optional fraction, an optional exponent. */
  function UnsignedDecimal(u: string): real
  {
    var ip := DigitRun(u);
    var rest := u[ip..];
    var dot := rest != [] && rest[0] == '.';
    var fl := if dot then DigitRun(rest[1..]) else 0;
    var frac := if dot then rest[1..][..fl] else [];
    var after := if dot then rest[1 + fl..] else rest;
    if ip == 0 && fl == 0 then 0.0 else Decimal(u[..ip], frac, Exponent(after))
  }

  /** `atof` on decimal notation: optional white space, an optional sign,
      then an unsigned decimal; 0.0 when nothing converts. */
  function AtoF(s: string): real
  {
    var t := SkipSpace(s);
    if t != [] && (t[0] == '-' || t[0] == '+') then
      (if t[0] == '-' then -UnsignedDecimal(t[1..]) else UnsignedDecimal(t[1..]))
    else UnsignedDecimal(t)
  }

  /** The C conversion `(int) x`: truncation toward zero. */
  function TruncToInt(x: real): (r: int)
    ensures x >= 0.0 ==> r as real <= x < r as real + 1.0
    ensures x < 0.0 ==> r as real - 1.0 < x <= r as real
  {
    if x >= 0.0 then x.Floor else -((-x).Floor)
  }

  // ---------------------------------------------------------------------
  // Round trips between formatting and parsing

  lemma {:induction false} DigitsValueOfNatToString(n: nat)
    ensures DigitsValue(NatToString(n)) == n
  {
    var s := NatToString(n);
    if n >= 10 {
      assert s[..|s| - 1] == NatToString(n / 10);
      DigitsValueOfNatToString(n / 10);
    }
  }

  lemma {:induction false} DigitRunOfDigits(ds: string, rest: string)
    requires AllDigits(ds)
    requires rest == [] || !IsDigit(rest[0])
    ensures DigitRun(ds + rest) == |ds|
  {
    if ds != [] {
      assert (ds + rest)[1..] == ds[1..] + rest;
      DigitRunOfDigits(ds[1..], rest);
    }
  }

  /** The digits `%d` writes for `n`, read back by the prefix rule of `atoi`,
      give `n` again, whatever non-digit text follows them. */
  lemma LeadingNumberOfNatToString(n: nat, rest: string)
    requires rest == [] || !IsDigit(rest[0])
    ensures LeadingNumber(NatToString(n) + rest) == n
  {
    var s := NatToString(n);
    DigitRunOfDigits(s, rest);
    assert (s + rest)[..|s|] == s;
    DigitsValueOfNatToString(n);
  }

  /** Text that does not start with white space is left alone by the skip. */
  lemma SkipSpaceNone(s: string)
    requires s != [] && !IsSpace(s[0])
    ensures SkipSpace(s) == s
  {
  }

  /** `atoi` of digits followed by a non-digit. */
  lemma AtoIOfDigits(ds: string, rest: string)
    requires ds != [] && AllDigits(ds)
    requires rest == [] || !IsDigit(rest[0])
    ensures AtoI(ds + rest) == DigitsValue(ds)
  {
    var s := ds + rest;
    DigitRunOfDigits(ds, rest);
    assert s[..|ds|] == ds;
    assert s[0] == ds[0];
    SkipSpaceNone(s);
  }

  /** `atoi` of a minus sign and digits followed by a non-digit. */
  lemma AtoIOfNegatedDigits(ds: string, rest: string)
    requires ds != [] && AllDigits(ds)
    requires rest == [] || !IsDigit(rest[0])
    ensures AtoI("-" + ds + rest) == -(DigitsValue(ds) as int)
  {
    var s := "-" + ds + rest;
    DigitRunOfDigits(ds, rest);
    assert s[1..] == ds + rest;
    assert (ds + rest)[..|ds|] == ds;
    SkipSpaceNone(s);
  }

  /** `atoi` undoes `%d`: reading the decimal text of any integer, followed
      by anything that does not start with a digit, yields that integer. */
  lemma AtoIOfIntToString(i: int, rest: string)
    requires rest == [] || !IsDigit(rest[0])
    ensures AtoI(IntToString(i) + rest) == i
  {
    var n: nat := if i < 0 then -i else i;
    var ds := NatToString(n);
    DigitsValueOfNatToString(n);
    if i < 0 {
      assert IntToString(i) + rest == "-" + ds + rest;
      AtoIOfNegatedDigits(ds, rest);
    } else {
      assert IntToString(i) + rest == ds + rest;
      AtoIOfDigits(ds, rest);
    }
  }

  /** A plain run of digits is an unsigned decimal with no fraction and no exponent. */
  lemma UnsignedDecimalOfDigits(ds: string)
    requires ds != [] && AllDigits(ds)
    ensures UnsignedDecimal(ds) == DigitsValue(ds) as real
  {
    DigitRunOfDigits(ds, []);
    assert ds + [] == ds;
    assert ds[..|ds|] == ds;
    assert ds[|ds|..] == [];
  }

  /** Text that starts with a digit reaches `atof`'s unsigned part unchanged. */
  lemma AtoFOfUnsigned(s: string)
    requires s != [] && IsDigit(s[0])
    ensures AtoF(s) == UnsignedDecimal(s)
  {
    SkipSpaceNone(s);
  }

  /** `atof` reads the text `%d` writes for a non-negative value back as that value. */
  lemma AtoFOfNatToString(n: nat)
    ensures AtoF(NatToString(n)) == n as real
  {
    var s := NatToString(n);
    AtoFOfUnsigned(s);
    UnsignedDecimalOfDigits(s);
    DigitsValueOfNatToString(n);
  }

  /** The three NPLC constants the rate write sends, as `atof` reads them. */
  lemma RateConstants()
    ensures AtoF("6") == 6.0 && AtoF("1") == 1.0 && AtoF("0.1") == 0.1
  {
    AtoFOfNatToString(6);
    AtoFOfNatToString(1);
    assert NatToString(6) == "6" && NatToString(1) == "1";
    AtoFOfUnsigned("0.1");
    TenthDecimal();
  }

  lemma TenthDecimal()
    ensures UnsignedDecimal("0.1") == 0.1
  {
    var u := "0.1";
    assert u[0] == '0' && u[1] == '.' && u[2] == '1';
    DigitRunOne(u);
    assert DigitRun(u[2..]) == 1 by { assert u[2..] == "1"; assert DigitRun("1"[1..]) == 0; }
    UnsignedDecimalWithFraction(u, 1, 1);
    assert u[..1] == "0" && u[2..][..1] == "1" && u[3..] == [];
    assert DigitsValue("0") == 0 by { assert "0"[..0] == []; }
    assert Fraction("1") == 0.1 by { assert "1"[1..] == []; }
  }

  /** The exponent rule reads digits after `e`, with or without a minus sign. */
  lemma ExponentOfDigits(ds: string)
    requires ds != [] && AllDigits(ds)
    ensures Exponent("e" + ds) == DigitsValue(ds)
    ensures Exponent("e-" + ds) == -(DigitsValue(ds) as int)
  {
    DigitRunOfDigits(ds, []);
    assert ds + [] == ds && ds[..|ds|] == ds;
    assert ("e" + ds)[1..] == ds;
    assert ("e-" + ds)[1..][1..] == ds;
  }

  /** An exponent written with or without a minus sign in front of its
      digits is read back with that sign. */
  lemma ExponentOfSigned(w: string, ds: string, neg: bool)
    requires ds != [] && AllDigits(ds)
    requires w == if neg then "-" + ds else ds
    ensures Exponent("e" + w) == if neg then -(DigitsValue(ds) as int) else DigitsValue(ds)
  {
    ExponentOfDigits(ds);
    if neg {
      assert "e" + w == "e-" + ds;
    }
  }

  /** An exponent written by `%d` is read back by `atof`'s exponent rule. */
  lemma ExponentOfIntToString(e: int)
    ensures Exponent("e" + IntToString(e)) == e
  {
    var n: nat := if e < 0 then -e else e;
    DigitsValueOfNatToString(n);
    ExponentOfSigned(IntToString(e), NatToString(n), e < 0);
  }

  /** Shifting by `e` places multiplies by ten to the `e`. */
  lemma ScaleByTimes(x: real, e: int)
    ensures ScaleBy(x, e) == x * Scale(e)
  {
    if e >= 0 {
      ShiftUpTimes(x, e);
    } else {
      ShiftDownOver(x, -e);
    }
  }

  /** Shifting `n` places to the left multiplies by ten to the `n`. */
  lemma {:induction false} ShiftUpTimes(x: real, n: nat)
    ensures ShiftUp(x, n) == x * (Pow10(n) as real)
  {
    if n > 0 {
      ShiftUpTimes(x, n - 1);
      TimesTen(x, Pow10(n - 1) as real);
    }
  }

  /** Shifting `n` places to the right divides by ten to the `n`. */
  lemma {:induction false} ShiftDownOver(x: real, n: nat)
    ensures ShiftDown(x, n) == x * (1.0 / Pow10(n) as real)
  {
    if n > 0 {
      ShiftDownOver(x, n - 1);
      OverTen(x, Pow10(n - 1) as real);
    }
  }

  lemma TimesTen(x: real, p: real)
    ensures 10.0 * (x * p) == x * (10.0 * p)
  {
  }

  lemma OverTen(x: real, p: real)
    requires p > 0.0
    ensures x * (1.0 / p) / 10.0 == x * (1.0 / (10.0 * p))
  {
  }

  /** The value of an unsigned decimal with a fraction, from the cuts that
      separate its integer digits, its fraction digits and its exponent. */
  lemma UnsignedDecimalWithFraction(u: string, i: nat, f: nat)
    requires i < |u| && DigitRun(u) == i && u[i] == '.' && DigitRun(u[i + 1..]) == f
    requires i > 0 || f > 0
    ensures UnsignedDecimal(u) == Decimal(u[..i], u[i + 1..][..f], Exponent(u[i + 1 + f..]))
  {
    assert u[i..][1..] == u[i + 1..];
    assert u[i..][1 + f..] == u[i + 1 + f..];
  }

  /** `atof` cuts `2.0e<x>` into integer digits "2", fraction digits "0"
      and the exponent text after them. */
  lemma AtoFOfTwoPointZero(x: string)
    ensures AtoF("2.0e" + x) == Decimal("2", "0", Exponent("e" + x))
  {
    var s := "2.0e" + x;
    assert s[0] == '2' && s[1] == '.' && s[2] == '0' && s[3] == 'e';
    AtoFOfUnsigned(s);
    DigitRunOne(s);
    assert s[2..][0] == '0' && s[2..][1] == 'e';
    DigitRunOne(s[2..]);
    UnsignedDecimalWithFraction(s, 1, 1);
    assert s[..1] == "2" && s[2..][..1] == "0" && s[3..] == "e" + x;
  }

  lemma DigitRunStops(t: string)
    requires t != [] && !IsDigit(t[0])
    ensures DigitRun(t) == 0
  {
  }

  lemma DigitRunOne(t: string)
    requires |t| >= 2 && IsDigit(t[0]) && !IsDigit(t[1])
    ensures DigitRun(t) == 1
  {
    DigitRunStops(t[1..]);
  }

  lemma TwoPointZero(e: int)
    ensures Decimal("2", "0", e) == ScaleBy(2.0, e)
  {
    assert DigitsValue("2") == 2 by { assert "2"[..0] == []; }
    assert Fraction("0") == 0.0 by { assert "0"[1..] == []; }
  }

  /** `atof` of the text `2.0e<e>` the range write sends is 2 shifted by
      `e` decimal places, that is two times ten to the `e` (ScaleByTimes). */
  lemma AtoFOfTwoShifted(e: int)
    ensures AtoF("2.0e" + IntToString(e)) == ScaleBy(2.0, e)
  {
    AtoFOfTwoPointZero(IntToString(e));
    ExponentOfIntToString(e);
    TwoPointZero(e);
  }
}
