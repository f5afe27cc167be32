/** Floor division and products, for the solver. */
module Division {

  function Floor(x: nat, d: nat): (q: nat)
    requires d > 0
  {
    x / d
  }

  lemma ProductPositive(a: int, b: int)
    requires a > 0 && b > 0
    ensures a * b > 0
  {
  }

  lemma ProductNonNegative(a: int, b: int)
    requires a >= 0 && b >= 0
    ensures a * b >= 0
  {
  }

  lemma FloorDiv(x: nat, d: nat)
    requires d > 0
    ensures x / d >= 0 && (x / d) * d <= x < (x / d) * d + d
  {
  }

  lemma FloorUnique(q: nat, x: nat, d: nat)
    requires d > 0 && q * d <= x < q * d + d
    ensures q == x / d
  {
    FloorDiv(x, d);
    ProductGap(x / d, q, d);
    ProductGap(q, x / d, d);
  }

  lemma ProductGap(x: int, y: int, k: int)
    requires k >= 0
    ensures x > y ==> x * k >= y * k + k
  {
    if x > y {
      ProductNonNegative(x - y - 1, k);
      assert (x - y - 1) * k == x * k - y * k - k;
    }
  }

  lemma ScaleMonotone(x: int, y: int, k: int)
    requires x <= y && k >= 0
    ensures x * k <= y * k
  {
    assert y * k - x * k == (y - x) * k;
  }

  /** Two floor divisions in a row are one. */
  lemma FloorTwice(x: nat, a: nat, b: nat)
    requires a > 0 && b > 0
    ensures a * b > 0 && x / a / b == x / (a * b)
  {
    ProductPositive(a, b);
    FloorDiv(x, a);
    FloorDiv(x / a, b);
    var p := x / a;
    var q := p / b;
    assert q * (a * b) == (q * b) * a;
    ScaleMonotone(q * b, p, a);
    ScaleMonotone(p + 1, q * b + b, a);
    assert (p + 1) * a == p * a + a;
    assert (q * b + b) * a == q * (a * b) + a * b;
    FloorUnique(q, x, a * b);
  }

  /** Cancelling a common factor. */
  lemma CancelFactor(x: nat, d: nat, k: nat)
    requires d > 0 && k > 0
    ensures d * k > 0 && (x * k) / (d * k) == x / d
  {
    ProductPositive(d, k);
    FloorDiv(x, d);
    var q := x / d;
    ScaleMonotone(q * d, x, k);
    ScaleMonotone(x + 1, q * d + d, k);
    assert (q * d) * k == q * (d * k);
    assert (x + 1) * k == x * k + k && (q * d + d) * k == q * (d * k) + d * k;
    FloorUnique(q, x * k, d * k);
  }

  lemma FloorMonotone(x: nat, y: nat, d: nat)
    requires x <= y && d > 0
    ensures x / d <= y / d
  {
    FloorDiv(x, d);
    FloorDiv(y, d);
    ProductGap(x / d, y / d, d);
  }

  /** Dividing in pieces never totals more than dividing at once. */
  lemma FloorSplit(x: nat, y: nat, d: nat)
    requires d > 0
    ensures x / d + y / d <= (x + y) / d
  {
    FloorDiv(x, d);
    FloorDiv(y, d);
    FloorDiv(x + y, d);
    assert (x / d + y / d) * d == (x / d) * d + (y / d) * d;
    ProductGap(x / d + y / d, (x + y) / d, d);
  }

  lemma FloorBelow(x: nat, d: nat, bound: nat)
    requires d > 0
    ensures x < bound * d <==> x / d < bound
  {
    FloorDiv(x, d);
    ProductGap(bound, x / d, d);
    if x / d < bound { ScaleMonotone(x / d + 1, bound, d); assert (x / d + 1) * d == (x / d) * d + d; }
  }

  lemma ZeroFactor(x: int, y: int)
    requires x == 0
    ensures x * y == 0
  {
  }
}
