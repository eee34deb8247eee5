/**
 * The amount validator. An amount is what Python's `float()` made of the text
 * the user typed: a finite number, an infinity, or NaN (the texts "inf" and
 * "nan" parse). The conversion itself is not part of this model.
 */
module Amounts {
  import opened Wrappers

  /** A binary floating-point value, as far as the validator can tell values apart. */
  datatype Float = Finite(value: real) | Infinite(negative: bool) | NaN

  /** IEEE 754 `x <= 0`: false for NaN, as every ordered comparison with NaN is. */
  predicate AtMostZero(f: Float) {
    match f
    case Finite(v) => v <= 0.0
    case Infinite(negative) => negative
    case NaN => false
  }

  /** The check as the validator writes it: the amount is refused when `amount <= 0`. */
  predicate AcceptedAsWritten(f: Float) {
    !AtMostZero(f)
  }

  /**
   * The texts "nan" and "inf" are no amounts of money, yet the check as
   * written lets both through; the intended check refuses them.
   */
  lemma NaNPassesAsWritten()
    ensures AcceptedAsWritten(NaN) && AcceptAmount(NaN).None?
    ensures AcceptedAsWritten(Infinite(false)) && AcceptAmount(Infinite(false)).None?
  {
  }

  /**
   * The check as intended: only a finite number greater than zero is an
   * amount; it is returned as an exact value.
   */
  function AcceptAmount(f: Float): (r: Option<real>)
    ensures r.Some? ==> r.value > 0.0 && f == Finite(r.value)
    ensures f.Finite? && f.value > 0.0 ==> r.Some?
  {
    if f.Finite? && f.value > 0.0 then Some(f.value) else None
  }

  /** The intended check differs from the written one only on values that are not finite numbers. */
  lemma AcceptAmountRefinesAsWritten(f: Float)
    ensures AcceptAmount(f).Some? ==> AcceptedAsWritten(f)
    ensures f.Finite? ==> (AcceptAmount(f).Some? <==> AcceptedAsWritten(f))
    ensures !f.Finite? ==> AcceptAmount(f).None?
  {
  }
}
