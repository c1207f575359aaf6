/**
 * Numbers as the reconciliation page reads them from its form fields.
 *
 * Every amount is held in integer cents (10.50 euros is 1050), so the
 * page's `toFixed(2)` display and its read-back by `parseFloat` are exact.
 * A field whose text does not parse (empty, or not a number) gives NaN.
 */
module Amounts {

  /** What `parseFloat` or `parseInt` returns for a field's text. */
  datatype Parsed = Num(n: int) | NaN

  /** The idiom `parse(text) || 0`: a NaN reading counts as zero. */
  function OrZero(p: Parsed): int
  {
    match p
    case Num(n) => n
    case NaN => 0
  }

  /** JavaScript `+` on numbers: NaN on either side gives NaN. */
  function Plus(a: Parsed, b: Parsed): Parsed
  {
    if a.NaN? || b.NaN? then NaN else Num(a.n + b.n)
  }

  /** JavaScript `*` of a number by an integer: NaN stays NaN. */
  function Times(a: Parsed, k: int): Parsed
  {
    if a.NaN? then NaN else Num(a.n * k)
  }

  function Abs(x: int): nat
  {
    if x < 0 then -x else x
  }

  /** `Plus` is a commutative monoid with unit `Num(0)` and absorbing `NaN`. */
  lemma PlusLaws(a: Parsed, b: Parsed, c: Parsed)
    ensures Plus(a, b) == Plus(b, a)
    ensures Plus(Plus(a, b), c) == Plus(a, Plus(b, c))
    ensures Plus(a, Num(0)) == a
    ensures Plus(a, NaN) == NaN
  {
  }
}
