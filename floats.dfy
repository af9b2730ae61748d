/** The float64 values that reach the control core from strconv.ParseFloat.
    Finite values are exact reals (rounding is not modelled); the IEEE 754
    special values are kept, because the comparisons in the range checks
    treat them specially. */
module Floats {

  datatype Float = Finite(value: real) | PosInf | NegInf | NaN

  /** What strconv.ParseFloat reports for one token: a number or a syntax error. */
  datatype Parsed = Number(number: Float) | Malformed

  /** IEEE 754 `x < b` for a finite bound `b`: false whenever `x` is NaN. */
  predicate LessThan(x: Float, b: real) {
    match x
    case Finite(v) => v < b
    case NegInf => true
    case PosInf => false
    case NaN => false
  }

  /** IEEE 754 `x > b` for a finite bound `b`: false whenever `x` is NaN. */
  predicate GreaterThan(x: Float, b: real) {
    match x
    case Finite(v) => v > b
    case NegInf => false
    case PosInf => true
    case NaN => false
  }

  /** IEEE 754 `x <= b` for a finite bound `b`: false whenever `x` is NaN. */
  predicate AtMost(x: Float, b: real) {
    match x
    case Finite(v) => v <= b
    case NegInf => true
    case PosInf => false
    case NaN => false
  }

  /** IEEE 754 division of `x` by a positive finite divisor. */
  function Quotient(x: Float, d: real): (q: Float)
    requires d > 0.0
    ensures q.NaN? <==> x.NaN?
    ensures q.Finite? <==> x.Finite?
    ensures x.Finite? ==> q.value * d == x.value
    ensures AtMost(x, 0.0) <==> AtMost(q, 0.0)
  {
    match x
    case Finite(v) => Finite(v / d)
    case PosInf => PosInf
    case NegInf => NegInf
    case NaN => NaN
  }

  /** The range check exactly as the source writes it: a value is refused
      when `x < lo || x > hi`. */
  predicate RejectedAsWritten(x: Float, lo: real, hi: real) {
    LessThan(x, lo) || GreaterThan(x, hi)
  }

  /** The range check the source evidently intends: a value is accepted
      when it is a number lying in [lo, hi], bounds included. */
  predicate Within(x: Float, lo: real, hi: real) {
    x.Finite? && lo <= x.value <= hi
  }

  /** The written check lets NaN through although NaN lies in no range. */
  lemma NaNPassesWrittenCheck(lo: real, hi: real)
    ensures !RejectedAsWritten(NaN, lo, hi)
    ensures !Within(NaN, lo, hi)
  {
  }

  /** On every value other than NaN the written check and the intended one
      agree, so the correction changes nothing else. */
  lemma WrittenCheckAgreesOffNaN(x: Float, lo: real, hi: real)
    requires x != NaN
    ensures RejectedAsWritten(x, lo, hi) <==> !Within(x, lo, hi)
  {
  }
}
