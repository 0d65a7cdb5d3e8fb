/**
 Numbers as pandas produces them in the composite: exact reals, or a
 non-finite value (an infinity or NaN). Dividing by a zero base yields
 a non-finite value, and a non-finite operand makes every sum and
 product non-finite, so the finite/non-finite split below is exact.
 */
module Extended {

  datatype Num = Fin(v: real) | NonFinite

  /** `x / y` on floats: a zero divisor gives inf or NaN. */
  function Ratio(x: real, y: real): (r: Num)
    ensures r.Fin? <==> y != 0.0
    ensures r.Fin? ==> r.v * y == x
  {
    if y == 0.0 then NonFinite else Fin(x / y)
  }

  /** `a + b` */
  function Add(a: Num, b: Num): (r: Num)
    ensures r.Fin? <==> a.Fin? && b.Fin?
    ensures r.Fin? ==> r.v - b.v == a.v
  {
    if a.Fin? && b.Fin? then Fin(a.v + b.v) else NonFinite
  }

  /** `a * k` for a finite factor `k` (inf * 0 is NaN, still non-finite). */
  function Scale(a: Num, k: real): (r: Num)
    ensures r.Fin? <==> a.Fin?
    ensures r.Fin? && k != 0.0 ==> r.v / k == a.v
  {
    if a.Fin? then Fin(a.v * k) else NonFinite
  }

  lemma AddAssociative(a: Num, b: Num, c: Num)
    ensures Add(Add(a, b), c) == Add(a, Add(b, c))
  {
  }

  lemma AddCommutative(a: Num, b: Num)
    ensures Add(a, b) == Add(b, a)
  {
  }

  lemma ScaleDistributes(a: Num, j: real, k: real)
    ensures Scale(a, j + k) == Add(Scale(a, j), Scale(a, k))
  {
  }
}
