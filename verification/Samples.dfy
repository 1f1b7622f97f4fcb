/** One value of a series, and the floats the services make of it: reals plus the IEEE specials. */
module Samples {

  datatype Sample = Absent | NaN | Fin(v: real) | PosInf | NegInf

  /** A float64, without rounding. */
  type Float = s: Sample | s != Absent witness NaN

  function Div(a: Sample, b: Sample): Sample {
    if a.Absent? || b.Absent? then Absent
    else if a.NaN? || b.NaN? then NaN
    else if b.Fin? then
      if a.Fin? then
        if b.v != 0.0 then Fin(a.v / b.v)
        else if a.v == 0.0 then NaN else if a.v > 0.0 then PosInf else NegInf
      else if b.v >= 0.0 then a else if a.PosInf? then NegInf else PosInf
    else if a.Fin? then Fin(0.0)
    else NaN
  }

  /** a > b; nothing compares with NaN. */
  predicate Above(a: Sample, b: Sample) {
    match (a, b)
    case (Fin(x), Fin(y)) => x > y
    case (PosInf, Fin(_)) => true
    case (PosInf, NegInf) => true
    case (Fin(_), NegInf) => true
    case _ => false
  }

  /** a >= b. */
  predicate Reaches(a: Sample, b: Sample) { Above(a, b) || (a == b && !a.NaN? && !a.Absent?) }

  /** What querying an instant value returns: a missing series reads as zero. */
  function Queried(s: Sample): Float { if s == Absent then Fin(0.0) else s }
}
