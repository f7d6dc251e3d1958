/** Small datatypes and helpers shared by the models. */
module Common {
  datatype Option<+T> = None | Some(value: T)

  datatype Result<+T, +E> = Ok(value: T) | Err(error: E)

  function Max(a: int, b: int): int {
    if a >= b then a else b
  }

  function Min(a: int, b: int): int {
    if a <= b then a else b
  }

  predicate Distinct<T(==)>(s: seq<T>) {
    forall i, j :: 0 <= i < j < |s| ==> s[i] != s[j]
  }

  /** Math.round: nearest integer, halves upwards. */
  function Round(x: real): (r: int)
    ensures x - 0.5 < r as real <= x + 0.5
  {
    (x + 0.5).Floor
  }

  function Ceil(x: real): (r: int)
    ensures x <= r as real < x + 1.0
  {
    -(-x).Floor
  }

  /** Multiplying by a positive number keeps the order. */
  lemma ScaleOrder(p: real, q: real, step: real)
    requires step > 0.0
    ensures p <= q <==> p * step <= q * step
    ensures p < q <==> p * step < q * step
  {
    assert (q - p) * step == q * step - p * step;
    if p < q { assert (q - p) * step > 0.0; }
    if p > q { assert (p - q) * step > 0.0; }
  }

  /** A product as a unit, so that proofs can hide the multiplication. */
  function Prod(a: real, b: real): real {
    a * b
  }

  lemma ProdNonNegative(a: real, b: real)
    requires a >= 0.0 && b >= 0.0
    ensures Prod(a, b) >= 0.0
  {}

  lemma ProdMonotone(a: real, b: real, c: real)
    requires a <= b && c >= 0.0
    ensures Prod(a, c) <= Prod(b, c)
  {
    assert (b - a) * c >= 0.0;
  }

  lemma ProdCancels(a: real, b: real, c: real)
    requires c > 0.0 && Prod(a, c) <= Prod(b, c)
    ensures a <= b
  {
    ScaleOrder(a, b, c);
  }

  lemma QuotientTimes(p: real, q: real)
    requires q != 0.0
    ensures Prod(p / q, q) == p
  {}
}
