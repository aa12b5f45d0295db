/** Validation of a Brazilian taxpayer number (CPF): eleven digits whose last
    two are mod-11 check digits over the preceding ones. Formatting
    characters are ignored. */
module Cpf {
  import opened Text

  /** Σ_{i < n} value(d[i]) · (top − i): the weighted sum behind a check digit. */
  function WeightedSum(d: string, n: nat, top: int): int
    requires n <= |d|
  {
    if n == 0 then 0 else WeightedSum(d, n - 1, top) + DigitValue(d[n - 1]) * (top - (n - 1))
  }

  /** The check digit of a weighted sum: (sum · 10) mod 11, with 10 read as 0.
      The sums are never negative, so JavaScript's `%` agrees with Dafny's. */
  function CheckDigit(sum: int): (r: int)
    ensures 0 <= r <= 9
    ensures sum >= 0 ==> r == (sum * 10) % 11 || ((sum * 10) % 11 == 10 && r == 0)
  {
    var rem := (sum * 10) % 11;
    if rem == 10 || rem == 11 then 0 else rem
  }

  /** All characters equal to the first one (`/^(\d)\1{10}$/` on eleven digits). */
  predicate AllSame(d: string) {
    forall i :: 0 <= i < |d| ==> d[i] == d[0]
  }

  /** The first check digit of an eleven-digit string. */
  function FirstCheck(d: string): int
    requires |d| == 11
  {
    CheckDigit(WeightedSum(d, 9, 10))
  }

  /** The second check digit of an eleven-digit string. */
  function SecondCheck(d: string): int
    requires |d| == 11
  {
    CheckDigit(WeightedSum(d, 10, 11))
  }

  /** `isValidCpf(raw)`: the digits of `raw` are eleven, not all equal, and
      both check digits are right. */
  predicate IsValidCpf(raw: string) {
    var d := OnlyDigits(raw);
    && |d| == 11
    && !AllSame(d)
    && FirstCheck(d) == DigitValue(d[9])
    && SecondCheck(d) == DigitValue(d[10])
  }

  /** The validation as the source performs it: strip the non-digits, test
      the length and the repeated-digit pattern, then accumulate each
      weighted sum in a loop and compare the check digits. */
  method ValidateCpf(raw: string) returns (valid: bool)
    ensures valid == IsValidCpf(raw)
  {
    var cpf := "";
    var k := 0;
    while k < |raw|
      invariant 0 <= k <= |raw|
      invariant cpf == OnlyDigits(raw[..k])
    {
      OnlyDigitsAppend(raw[..k], [raw[k]]);
      assert raw[..k + 1] == raw[..k] + [raw[k]];
      if IsDigit(raw[k]) {
        cpf := cpf + [raw[k]];
      }
      k := k + 1;
    }
    assert raw[..|raw|] == raw;

    if |cpf| != 11 {
      return false;
    }
    if AllSame(cpf) {
      return false;
    }

    var sum := 0;
    for i := 0 to 9
      invariant sum == WeightedSum(cpf, i, 10)
    {
      sum := sum + DigitValue(cpf[i]) * (10 - i);
    }
    var rem := (sum * 10) % 11;
    if rem == 10 || rem == 11 {
      rem := 0;
    }
    if rem != DigitValue(cpf[9]) {
      return false;
    }

    sum := 0;
    for i := 0 to 10
      invariant sum == WeightedSum(cpf, i, 11)
    {
      sum := sum + DigitValue(cpf[i]) * (11 - i);
    }
    rem := (sum * 10) % 11;
    if rem == 10 || rem == 11 {
      rem := 0;
    }
    if rem != DigitValue(cpf[10]) {
      return false;
    }
    return true;
  }

  /** Formatting characters do not matter: a CPF is valid exactly when its
      digits alone are. */
  lemma FormattingIgnored(raw: string)
    ensures IsValidCpf(raw) == IsValidCpf(OnlyDigits(raw))
  {
    OnlyDigitsIdempotent(raw);
  }

  /** Any number of digits other than eleven is rejected. */
  lemma WrongLengthRejected(raw: string)
    requires |OnlyDigits(raw)| != 11
    ensures !IsValidCpf(raw)
  {
  }

  /** Eleven repetitions of one digit are rejected, although their check
      digits work out. */
  lemma RepeatedDigitRejected(c: char)
    requires IsDigit(c)
    ensures !IsValidCpf(seq(11, _ => c))
  {
    var d := seq(11, _ => c);
    OnlyDigitsKeepsDigits(d);
  }

  /** `$1.$2.$3-$4` applied to the groups of eleven digits. */
  function Dotted(d: string): (r: string)
    requires |d| == 11
    ensures |r| == 14 && r[3] == '.' && r[7] == '.' && r[11] == '-'
  {
    d[..3] + "." + d[3..6] + "." + d[6..9] + "-" + d[9..]
  }

  /** `s.replace(/(\d{3})(\d{3})(\d{3})(\d{2})/, '$1.$2.$3-$4')`: the first run
      of eleven digits, searched from position `i` on, is written in dotted form;
      a string without such a run is left as it is. */
  function FormatCpfFrom(s: string, i: nat): (r: string)
    decreases |s| - i
  {
    if i + 11 > |s| then s
    else if AllDigits(s[i..i + 11]) then s[..i] + Dotted(s[i..i + 11]) + s[i + 11..]
    else FormatCpfFrom(s, i + 1)
  }

  /** The CPF as the booking confirmation shows it. */
  function FormatCpf(s: string): string {
    FormatCpfFrom(s, 0)
  }

  /** Formatting a stored CPF of exactly eleven digits gives the dotted form,
      and stripping the formatting again gives back the stored digits. */
  lemma FormatCpfRoundTrip(d: string)
    requires |d| == 11 && AllDigits(d)
    ensures FormatCpf(d) == Dotted(d)
    ensures OnlyDigits(FormatCpf(d)) == d
  {
    assert d[0..11] == d && d[..0] == [] && d[11..] == [];
    assert FormatCpf(d) == [] + Dotted(d) + [];
    var a, b, c, e := d[..3], d[3..6], d[6..9], d[9..];
    assert AllDigits(b) && AllDigits(c) && AllDigits(e);
    calc {
      OnlyDigits(Dotted(d));
      OnlyDigits(a + "." + b + "." + c + "-" + e);
      { DropMark(a + "." + b + "." + c, '-', e); }
      OnlyDigits(a + "." + b + "." + c) + e;
      { DropMark(a + "." + b, '.', c); }
      OnlyDigits(a + "." + b) + c + e;
      { DropMark(a, '.', b); OnlyDigitsKeepsDigits(a); }
      a + b + c + e;
      { assert a + b + c + e == d; }
      d;
    }
  }

  /** The check digits of the documented example 123.456.789-09: its weighted
      sums are 210 and 255, giving 0 and 9. */
  lemma ExampleCheckDigits()
    ensures FirstCheck("12345678909") == 0 && SecondCheck("12345678909") == 9
  {
    assert WeightedSum("12345678909", 9, 10) == 210;
    assert WeightedSum("12345678909", 10, 11) == 255;
  }

  /** The dotted form of 12345678909. */
  lemma ExampleDotted()
    ensures Dotted("12345678909") == "123.456.789-09"
  {
    var d := "12345678909";
    assert d[..3] == "123" && d[3..6] == "456" && d[6..9] == "789" && d[9..] == "09";
  }

  /** The documented example "123.456.789-09" is a valid CPF. */
  lemma DocumentedExampleAccepted()
    ensures IsValidCpf("123.456.789-09")
  {
    var d := "12345678909";
    FormatCpfRoundTrip(d);
    ExampleDotted();
    ExampleCheckDigits();
    assert d[1] != d[0];
  }

  /** Changing the last digit of a valid CPF makes it invalid: the second
      check digit is determined by the first ten. */
  lemma SecondCheckDigitDetermined(d: string, c: char)
    requires |d| == 11 && AllDigits(d) && IsValidCpf(d)
    requires IsDigit(c) && c != d[10]
    ensures !IsValidCpf(d[10 := c])
  {
    var e := d[10 := c];
    assert AllDigits(e);
    OnlyDigitsKeepsDigits(d);
    OnlyDigitsKeepsDigits(e);
    WeightedSumPrefix(d, e, 10, 11);
  }

  /** A weighted sum depends only on the digits it covers. */
  lemma {:induction false} WeightedSumPrefix(d: string, e: string, n: nat, top: int)
    requires n <= |d| && n <= |e|
    requires d[..n] == e[..n]
    ensures WeightedSum(d, n, top) == WeightedSum(e, n, top)
  {
    if n > 0 {
      assert d[n - 1] == d[..n][n - 1] == e[..n][n - 1] == e[n - 1];
      assert d[..n - 1] == d[..n][..n - 1];
      assert e[..n - 1] == e[..n][..n - 1];
      WeightedSumPrefix(d, e, n - 1, top);
    }
  }
}
