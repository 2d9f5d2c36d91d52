/** The parts of Go's `strconv` and `fmt` that option parsing and command
    building rely on: `strconv.Atoi` for a 64-bit `int`, `strconv.ParseBool`,
    and `fmt.Sprintf("%d", n)` for a non-negative `n`. */
module Strconv {
  import opened Results

  /** Bounds of Go's `int` on a 64-bit platform. */
  const MaxInt: int := 0x7fff_ffff_ffff_ffff
  const MinInt: int := -0x8000_0000_0000_0000

  predicate IsDigit(c: char) { '0' <= c <= '9' }

  predicate AllDigits(s: string) {
    forall i :: 0 <= i < |s| ==> IsDigit(s[i])
  }

  /** The value of a run of decimal digits, most significant first. */
  function DigitsValue(s: string): nat
    requires AllDigits(s)
  {
    if |s| == 0 then 0
    else DigitsValue(s[..|s| - 1]) * 10 + (s[|s| - 1] as int - '0' as int)
  }

  function DigitChar(d: nat): (c: char)
    requires d < 10
    ensures IsDigit(c) && c as int - '0' as int == d
  {
    ('0' as int + d) as char
  }

  /** `fmt.Sprintf("%d", n)` for `n >= 0`: decimal digits, no sign, no
      leading zero unless `n` is zero. */
  function Decimal(n: nat): (s: string)
    ensures |s| >= 1 && AllDigits(s)
    ensures n > 0 ==> s[0] != '0'
  {
    if n < 10 then [DigitChar(n)] else Decimal(n / 10) + [DigitChar(n % 10)]
  }

  /** `strconv.Atoi`: an optional `+` or `-` followed by one or more decimal
      digits, whose value fits a 64-bit `int`; anything else is an error. */
  function Atoi(s: string): (r: Option<int>)
    ensures r.Some? ==> s != "" && MinInt <= r.value <= MaxInt
  {
    if |s| == 0 then None
    else
      var negative := s[0] == '-';
      var digits := if s[0] == '+' || s[0] == '-' then s[1..] else s;
      if |digits| == 0 || !AllDigits(digits) then None
      else
        var magnitude: int := DigitsValue(digits);
        var v := if negative then -magnitude else magnitude;
        if v < MinInt || MaxInt < v then None else Some(v)
  }

  /** `strconv.ParseBool`: exactly these twelve spellings are accepted. */
  function ParseBool(s: string): Option<bool>
  {
    if s in {"1", "t", "T", "TRUE", "true", "True"} then Some(true)
    else if s in {"0", "f", "F", "FALSE", "false", "False"} then Some(false)
    else None
  }

  /** Reading back what `Decimal` wrote gives the number again. */
  lemma {:induction false} DecimalValue(n: nat)
    ensures DigitsValue(Decimal(n)) == n
  {
    if n >= 10 {
      var s := Decimal(n);
      assert s[..|s| - 1] == Decimal(n / 10);
      DecimalValue(n / 10);
    }
  }

  /** `Atoi` inverts `%d` on every non-negative `int`, and on its negation. */
  lemma AtoiDecimal(n: nat)
    requires n <= MaxInt
    ensures Atoi(Decimal(n)) == Some(n)
    ensures Atoi("-" + Decimal(n)) == Some(-(n as int))
  {
    DecimalValue(n);
    assert ("-" + Decimal(n))[1..] == Decimal(n);
  }
}
