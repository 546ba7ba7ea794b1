/** The few non-linear facts that counting failures needs. */
module Arithmetic {

  lemma MulAdd(a: int, b: int, c: int)
    ensures a * (b + c) == a * b + a * c
    ensures (b + c) * a == b * a + c * a
  {
  }

  lemma MulAtLeast(d: nat, k: nat)
    requires k >= 1
    ensures d * k >= d
  {
    MulAdd(d, 1, k - 1);
    assert d * (k - 1) >= 0;
  }

  lemma MulMonotone(d: nat, a: nat, b: nat)
    requires a <= b
    ensures d * a <= d * b
  {
    MulAdd(d, a, b - a);
    assert d * (b - a) >= 0;
  }

  lemma DivModUnique(x: nat, d: nat, q: nat, r: nat)
    requires r < d && x == d * q + r
    ensures x / d == q && x % d == r
  {
    var q' := x / d;
    if q < q' {
      MulAdd(d, q, q' - q);
      MulAtLeast(d, q' - q);
    } else if q' < q {
      MulAdd(d, q', q - q');
      MulAtLeast(d, q - q');
    }
  }

  lemma DivModSmall(r: nat, d: nat)
    requires r < d
    ensures r / d == 0 && r % d == r
  {
    DivModUnique(r, d, 0, r);
  }

  lemma DivModSucc(x: nat, d: nat)
    requires d > 0
    ensures (x + 1) / d == x / d + (if x % d == d - 1 then 1 else 0)
    ensures (x + 1) % d == if x % d == d - 1 then 0 else x % d + 1
  {
    var q := x / d;
    if x % d == d - 1 {
      MulAdd(d, q, 1);
      DivModUnique(x + 1, d, q + 1, 0);
    } else {
      DivModUnique(x + 1, d, q, x % d + 1);
    }
  }

  lemma DivModProduct(t: nat, d: nat)
    requires t >= 1 && d >= 1
    ensures t * d >= d
    ensures (t * d) / d == t && (t * d) % d == 0
    ensures (t * d - 1) / d == t - 1 && (t * d - 1) % d == d - 1
  {
    MulAtLeast(d, t);
    DivModUnique(t * d, d, t, 0);
    MulAdd(d, t - 1, 1);
    DivModUnique(t * d - 1, d, t - 1, d - 1);
  }
}
