/**
 * The payload of a Number value. The source computes with 64-bit floats; this
 * model keeps each float as the term that produced it, so arithmetic builds a
 * term instead of rounding. Only `factors` looks inside a number, through
 * `Truncate`.
 */
module Numbers {

  datatype Num =
    | Decimal(text: string)        // parsed from a number literal's lexeme
    | Integer(i: int)              // an integer converted with `as f64`
    | Negated(a: Num)
    | Sum(a: Num, b: Num)
    | Difference(a: Num, b: Num)
    | Product(a: Num, b: Num)
    | Quotient(a: Num, b: Num)
    | Power(a: Num, b: Num)        // `powf`
    | SineOf(a: Num)
    | PiConstant                   // `std::f64::consts::PI`

  /** The float 0.0, which statements and `plot` return. */
  const Zero: Num := Integer(0)

  predicate IsDigit(c: char) {
    '0' <= c <= '9'
  }

  function DigitValue(c: char): nat
    requires IsDigit(c)
  {
    (c as int) - ('0' as int)
  }

  /** Length of the run of digits that starts `s`. */
  function LeadingDigits(s: string): (n: nat)
    ensures n <= |s|
    ensures forall k | 0 <= k < n :: IsDigit(s[k])
    ensures n == |s| || !IsDigit(s[n])
  {
    if s != [] && IsDigit(s[0]) then 1 + LeadingDigits(s[1..]) else 0
  }

  /** The natural number written in decimal by the digit string `ds`. */
  function DigitsValue(ds: string): nat
    requires forall k | 0 <= k < |ds| :: IsDigit(ds[k])
  {
    if ds == [] then 0
    else 10 * DigitsValue(ds[..|ds| - 1]) + DigitValue(ds[|ds| - 1])
  }

  /**
   * Lexemes of at most this many characters hold at most 15 digits, and
   * 10^15 < 2^53: the float nearest to such a number is closer to it than its
   * distance to either neighbouring integer, so truncating the text agrees
   * with truncating the parsed float.
   */
  const ExactLexeme: nat := 15

  /** 2^53: every integer up to it converts to a float exactly. */
  const ExactInteger: nat := 0x20_0000_0000_0000

  /**
   * `n as u64`: truncation toward zero, where a negative value gives 0. It is
   * computed for short literals, for integers that convert exactly and for
   * their negations; for any other term (a longer literal such as
   * `0.99999999999999999`, which parses to 1.0, or a computed float) the
   * float it denotes is not modelled and `trunc` stands for it.
   */
  function Truncate(trunc: Num -> nat, n: Num): nat {
    match n
    case Decimal(text) =>
      if |text| <= ExactLexeme then DigitsValue(text[..LeadingDigits(text)]) else trunc(n)
    case Integer(i) => if i < 0 then 0 else if i <= ExactInteger then i else trunc(n)
    case Negated(Decimal(_)) => 0
    case Negated(Integer(i)) => if i > 0 then 0 else if -i <= ExactInteger then -i else trunc(n)
    case _ => trunc(n)
  }
}
