/** Facts about multiplication, remainders and rounding division. */
module Arithmetic {
  function CeilDiv(a: nat, b: nat): (q: nat)
    requires b > 0
    ensures a <= q * b
    ensures a > 0 ==> q >= 1 && (q - 1) * b < a
  {
    CeilDivExact(a, b);
    (a + b - 1) / b
  }

  lemma CeilDivExact(a: nat, b: nat)
    requires b > 0
    ensures a <= (a + b - 1) / b * b
    ensures a > 0 ==> (a + b - 1) / b >= 1 && ((a + b - 1) / b - 1) * b < a
  {
    var q := (a + b - 1) / b;
    assert q * b == a + b - 1 - (a + b - 1) % b;
    assert (q - 1) * b == q * b - b;
  }

  lemma MulMono(i: nat, j: nat, m: nat)
    requires i <= j
    ensures i * m <= j * m
  {
  }

  lemma RemainderIs(q: nat, r: nat, b: nat)
    requires r < b
    ensures (q * b + r) % b == r
  {
    var x := q * b + r;
    assert x == (x / b) * b + x % b;
    if x / b < q {
      MulMono(x / b + 1, q, b);
    } else if q < x / b {
      MulMono(q + 1, x / b, b);
    }
  }

  lemma ModShift(a: nat, d: nat, b: nat)
    requires b > 0 && d % b == 0
    ensures (a + d) % b == a % b
  {
    var k, q := d / b, a / b;
    assert d == k * b && a == q * b + a % b;
    assert a + d == (q + k) * b + a % b;
    RemainderIs(q + k, a % b, b);
  }

  lemma FloorBlocks(d: nat, b: nat)
    requires b > 0
    ensures d - d % b == d / b * b
  {
  }

  lemma Distribute(a: nat, b: nat, m: nat)
    ensures (a + b) * m == a * m + b * m
  {
  }

  lemma CeilDivMono(a: nat, b: nat, m: nat)
    requires m > 0 && a <= b
    ensures CeilDiv(a, m) <= CeilDiv(b, m)
  {
    if CeilDiv(b, m) < CeilDiv(a, m) {
      MulMono(CeilDiv(b, m), CeilDiv(a, m) - 1, m);
    }
  }

  lemma ShareBound(len: nat, k: nat, n: nat)
    requires k > 0 && len * k <= n
    ensures len <= CeilDiv(n, k)
  {
    if len > CeilDiv(n, k) {
      MulMono(CeilDiv(n, k) + 1, len, k);
    }
  }
}
