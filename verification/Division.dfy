/** The few facts about products, quotients and remainders that the layout proofs need. */
module Division {
  lemma MulMono(a: int, b: int, d: int)
    requires a <= b && d >= 0
    ensures a * d <= b * d
  {
  }

  /** Quotient and remainder are determined by n == d * q + rem. */
  lemma Unique(n: int, d: int, q: int, rem: int)
    requires d > 0 && n == d * q + rem && 0 <= rem < d
    ensures n / d == q && n % d == rem
  {
    var q2 := n / d;
    assert d * (q - q2) == n % d - rem;
    if q < q2 { MulMono(1, q2 - q, d); }
    if q > q2 { MulMono(1, q - q2, d); }
  }

  lemma Exact(d: nat, q: nat)
    requires d > 0
    ensures (d * q) / d == q && (d * q) % d == 0
  {
    Unique(d * q, d, q, 0);
  }

  lemma AddMultiple(i: nat, q: nat, n: nat)
    requires n > 0
    ensures (n * q + i) % n == i % n && (n * q + i) / n == q + i / n
  {
    var a, b := i / n, i % n;
    assert n * q + i == n * (q + a) + b by { assert n * (q + a) == n * q + n * a; }
    Unique(n * q + i, n, q + a, b);
  }

  lemma PositiveFactors(a: nat, b: nat)
    requires a * b > 0
    ensures a > 0 && b > 0 && a <= a * b && b <= a * b
  {
  }

  lemma Peel(n: nat, d: nat)
    requires n > 0
    ensures n * d == d + (n - 1) * d && n * d >= d
  {
  }

  lemma Distribute(a: int, b: int)
    ensures a * (b + 1) == a * b + a
  {
  }

  lemma SumMultiple(a: int, b: int, d: int)
    requires d > 0 && a % d == 0 && b % d == 0
    ensures (a + b) % d == 0 && (a - b) % d == 0
  {
    var p, q := a / d, b / d;
    assert a == d * p && b == d * q && d * (p + q) == d * p + d * q && d * (p - q) == d * p - d * q;
    Unique(a + b, d, p + q, 0);
    Unique(a - b, d, p - q, 0);
  }

  lemma Expand(a: int, b: int, k: int)
    ensures (a + b) * k == a * k + b * k
  {
  }

  lemma Regroup(each: int, more: int, fewer: int)
    ensures more * (each + 1) + fewer * each == (more + fewer) * each + more
  {
  }

  // ---------------------------------------------------------------- over the reals

  lemma Positive(x: real, y: real)
    requires x > 0.0 && y > 0.0
    ensures x * y > 0.0
  {
  }

  lemma Divide(a: real, b: real, n: real)
    requires n > 0.0 && a <= b
    ensures a / n <= b / n
    ensures n / n == 1.0 && 0.0 / n == 0.0
  {
    var p, q := a / n, b / n;
    assert p * n == a && q * n == b;
    if p > q { Positive(p - q, n); }
  }

  lemma Ratio(a: real, b: real)
    requires a >= 0.0 && b > 0.0
    ensures a / b >= 0.0
    ensures a / b <= 1.0 <==> a <= b
  {
    Divide(0.0, a, b);
    var q := a / b;
    assert q * b == a;
    if a <= b { Divide(a, b, b); }
    if q < 1.0 { Positive(1.0 - q, b); }
  }

  // ---------------------------------------------------------------- rounding up

  /** Division rounded up. */
  function CeilDiv(a: nat, b: nat): (c: nat)
    requires b > 0
    ensures a > 0 ==> c > 0
  {
    if a % b == 0 then a / b else a / b + 1
  }

  lemma CeilAtMost(a: nat, b: nat)
    requires b > 0
    ensures CeilDiv(a, b) <= a
  {
    var q, r := a / b, a % b;
    assert a == b * q + r;
    MulMono(1, b, q);
  }
}
