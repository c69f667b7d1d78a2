/** JavaScript numbers as the validators see them: a finite real, one of the two
    infinities, or NaN; plus a value whose `typeof` is not 'number'. */
module JsNumbers {

  datatype JsNum = Fin(r: real) | PosInf | NegInf | NaN

  /** Any JavaScript value handed to a validator: a number or something else. */
  datatype JsValue = Number(n: JsNum) | NotNumber

  /** The global `isNaN` applied to a number: NaN is the one number that is
      unordered against every number, itself included. */
  predicate IsNaN(x: JsNum): (b: bool)
    ensures b <==> forall y :: !Less(x, y) && !Less(y, x)
  {
    assert !x.NaN? ==> Less(x, PosInf) || Less(NegInf, x);
    x.NaN?
  }

  /** The global `isFinite` applied to a number: strictly between the two
      infinities. */
  predicate IsFinite(x: JsNum): (b: bool)
    ensures b <==> Less(NegInf, x) && Less(x, PosInf)
  {
    x.Fin?
  }

  /** IEEE 754 `a < b`: false as soon as one side is NaN. */
  predicate Less(a: JsNum, b: JsNum)
    ensures Less(a, b) ==> !a.NaN? && !b.NaN?
    ensures a.Fin? && b.Fin? ==> (Less(a, b) <==> a.r < b.r)
    ensures Less(a, b) ==> a != b
  {
    match (a, b)
    case (Fin(x), Fin(y)) => x < y
    case (NegInf, Fin(_)) => true
    case (NegInf, PosInf) => true
    case (Fin(_), PosInf) => true
    case _ => false
  }

  /** IEEE 754 `a > b`: `a < b` with the operands swapped. */
  predicate Greater(a: JsNum, b: JsNum): (g: bool)
    ensures g ==> !a.NaN? && !b.NaN?
    ensures a.Fin? && b.Fin? ==> (g <==> a.r > b.r)
  {
    Less(b, a)
  }

  /** IEEE 754 `a - b`. */
  function Minus(a: JsNum, b: JsNum): (d: JsNum)
    ensures a.NaN? || b.NaN? ==> d.NaN?
    ensures a.Fin? && b.Fin? ==> d == Fin(a.r - b.r)
    ensures a.Fin? && b == PosInf ==> d == NegInf
    ensures a.Fin? && b == NegInf ==> d == PosInf
  {
    match (a, b)
    case (Fin(x), Fin(y)) => Fin(x - y)
    case (NaN, _) => NaN
    case (_, NaN) => NaN
    case (PosInf, PosInf) => NaN
    case (NegInf, NegInf) => NaN
    case (PosInf, _) => PosInf
    case (NegInf, _) => NegInf
    case (Fin(_), PosInf) => NegInf
    case (Fin(_), NegInf) => PosInf
  }
}
