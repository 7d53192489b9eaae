/** Extended reals: the float64 values a summary's min and max can hold.
    Finite readings are exact reals; the two infinities are the sentinels
    a fresh or just-reset summary starts from (math.Inf(1), math.Inf(-1)).
    NaN never arises from integer readings and is not modelled. */
module ExtReal {

  datatype Ext = NegInf | Fin(r: real) | PosInf

  /** The float64 order on non-NaN values. */
  predicate Le(a: Ext, b: Ext)
  {
    match (a, b)
    case (NegInf, _) => true
    case (_, PosInf) => true
    case (Fin(x), Fin(y)) => x <= y
    case _ => false
  }

  /** Go's built-in min on two float64 values (exporter.go:82). */
  function Min(a: Ext, b: Ext): (m: Ext)
    ensures m == a || m == b
    ensures Le(m, a) && Le(m, b)
    ensures forall c :: Le(c, a) && Le(c, b) ==> Le(c, m)
  {
    if Le(a, b) then a else b
  }

  /** Go's built-in max on two float64 values (exporter.go:83). */
  function Max(a: Ext, b: Ext): (m: Ext)
    ensures m == a || m == b
    ensures Le(a, m) && Le(b, m)
    ensures forall c :: Le(a, c) && Le(b, c) ==> Le(m, c)
  {
    if Le(a, b) then b else a
  }
}
