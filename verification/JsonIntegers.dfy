/** Integers as encoding/json writes them and as json.Number.Int64 reads them. */
module JsonIntegers {
  import opened Json

  function Digit(n: nat): char
    requires n < 10
  {
    "0123456789"[n]
  }

  /** The decimal form of a natural number. */
  function Decimal(n: nat): (s: string)
    ensures s != "" && (forall c | c in s :: IsDigit(c)) && (n > 0 ==> s[0] != '0') && (n == 0 ==> s == "0")
  {
    if n < 10 then [Digit(n)] else Decimal(n / 10) + [Digit(n % 10)]
  }

  lemma {:induction false} SkipAllDigits(s: string)
    requires forall c | c in s :: IsDigit(c)
    ensures SkipDigits(s) == ""
  {
    if s != "" { SkipAllDigits(s[1..]); }
  }

  /** json.Marshal of an integer. */
  function IntToken(n: int): Numeral {
    SkipAllDigits(Decimal(if n < 0 then -n else n));
    if n < 0 then
      assert ("-" + Decimal(-n))[1..] == Decimal(-n);
      "-" + Decimal(-n)
    else Decimal(n)
  }

  predicate AllDigits(s: string) {
    s != "" && forall c | c in s :: IsDigit(c)
  }

  function DigitValue(c: char): nat
    requires IsDigit(c)
  {
    (c as int) - 0x30
  }

  function DigitsValue(s: string): int
    requires forall c | c in s :: IsDigit(c)
  {
    if s == "" then 0 else
      assert s[|s| - 1] in s;
      DigitsValue(s[..|s| - 1]) * 10 + DigitValue(s[|s| - 1])
  }

  const MAX_INT64: int := 0x7FFF_FFFF_FFFF_FFFF

  function Clamp(n: int): int {
    if n > MAX_INT64 then MAX_INT64 else if n < -MAX_INT64 - 1 then -MAX_INT64 - 1 else n
  }

  /** intValue: a number not written as an integer reads as zero, and one out of range as the nearest bound. */
  function IntValue(v: Value): int {
    if !v.Number? then 0
    else if AllDigits(v.token) then Clamp(DigitsValue(v.token))
    else if v.token[0] == '-' && AllDigits(v.token[1..]) then Clamp(-DigitsValue(v.token[1..]))
    else 0
  }

  lemma {:induction false} DecimalValue(n: nat)
    ensures DigitsValue(Decimal(n)) == n
  {
    if n >= 10 {
      DecimalValue(n / 10);
      assert Decimal(n)[..|Decimal(n)| - 1] == Decimal(n / 10);
    }
  }

  lemma IntRoundTrip(n: int)
    requires -MAX_INT64 - 1 <= n <= MAX_INT64
    ensures IntValue(Number(IntToken(n))) == n
  {
    var m := if n < 0 then -n else n;
    DecimalValue(m);
    if n < 0 {
      assert IntToken(n) == "-" + Decimal(m);
      assert IntToken(n)[1..] == Decimal(m);
      assert IntToken(n)[0] == '-' && IntToken(n)[0] in IntToken(n);
    } else {
      assert IntToken(n) == Decimal(m);
    }
  }
}
