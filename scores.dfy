/** Log-probability scores as the engine adds and compares them. */
module Scores {

  /** A path score: a finite log-probability, or minus infinity for an impossible path. */
  datatype Score = NegInf | Fin(r: real)

  /** Addition of two scores; minus infinity absorbs any finite summand, as in floating point. */
  function Add(a: Score, b: Score): Score
  {
    if a.NegInf? || b.NegInf? then NegInf else Fin(a.r + b.r)
  }

  /** The order the priority frontier compares by; minus infinity is below every finite score. */
  predicate Le(a: Score, b: Score)
  {
    a.NegInf? || (b.Fin? && a.r <= b.r)
  }
}
