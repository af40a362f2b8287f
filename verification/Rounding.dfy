/** Facts about flooring division and products of integers. Everything nonlinear
    in the project goes through these lemmas. */
module Rounding {

  lemma FloorBounds(x: nat, d: nat)
    requires d > 0
    ensures 0 <= x / d
    ensures x / d * d <= x < x / d * d + d
  {
    assert x == d * (x / d) + x % d;
  }

  lemma FloorExactIff(x: nat, d: nat)
    requires d > 0
    ensures x % d == 0 <==> x / d * d == x
  {
    assert x == d * (x / d) + x % d;
  }

  lemma MulMono(a: int, b: int, c: int)
    requires a <= b && 0 <= c
    ensures a * c <= b * c
  {
    assert 0 <= (b - a) * c;
  }

  lemma MulGap(a: int, b: int, c: int)
    requires a < b && 0 <= c
    ensures a * c + c <= b * c
  {
    MulMono(a + 1, b, c);
  }

  lemma MulCancel(a: int, b: int, c: int)
    requires 0 < c && a * c <= b * c
    ensures a <= b
  {
    if b < a {
      MulGap(b, a, c);
    }
  }

  /** The floor is the greatest multiple below. */
  lemma FloorAtLeast(x: nat, d: nat, q: int)
    requires d > 0 && q * d <= x
    ensures q <= x / d
  {
    FloorBounds(x, d);
    if x / d < q {
      MulGap(x / d, q, d);
    }
  }

  lemma FloorAtMost(x: nat, d: nat, q: int)
    requires d > 0 && x <= q * d
    ensures x / d <= q
  {
    FloorBounds(x, d);
    MulCancel(x / d, q, d);
  }

  lemma FloorShrinks(x: nat, d: nat)
    requires d > 0
    ensures 0 <= x / d <= x
  {
    FloorBounds(x, d);
    MulMono(1, d, x);
    FloorAtMost(x, d, x);
  }

  lemma FloorIs(x: nat, d: nat, q: int)
    requires d > 0 && q * d <= x < q * d + d
    ensures x / d == q
  {
    FloorAtLeast(x, d, q);
    FloorBounds(x, d);
    if q < x / d {
      MulGap(q, x / d, d);
    }
  }

  /** Splitting one product over two shares rounds one floor up and the other down. */
  lemma FloorCeilSplit(a: nat, b: nat, x: nat)
    requires a + b > 0
    ensures b * x / (a + b) == x - CeilDiv(a * x, a + b)
  {
    var t := a + b;
    FloorBounds(a * x + t - 1, t);
    var c := CeilDiv(a * x, t);
    assert c * t <= a * x + t - 1 < c * t + t;
    assert b * x == t * x - a * x;
    assert (x - c) * t == x * t - c * t;
    FloorIs(b * x, t, x - c);
  }

  function CeilDiv(x: nat, d: nat): nat
    requires d > 0
  {
    FloorBounds(x + d - 1, d);
    (x + d - 1) / d
  }

  lemma CeilBounds(x: nat, d: nat)
    requires d > 0
    ensures x <= CeilDiv(x, d) * d < x + d
  {
    FloorBounds(x + d - 1, d);
  }

  lemma CeilAtLeast(x: nat, d: nat, q: int)
    requires d > 0 && q * d <= x
    ensures q <= CeilDiv(x, d)
  {
    CeilBounds(x, d);
    MulCancel(q, CeilDiv(x, d), d);
  }
}
