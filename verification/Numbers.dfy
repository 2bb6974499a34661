/** The arithmetic helpers of the C++ standard library the program calls, over exact numbers. */
module Numbers {
  function Min(a: int, b: int): int { if b < a then b else a }

  function Max(a: int, b: int): int { if a < b then b else a }

  function MinReal(a: real, b: real): real { if b < a then b else a }

  function MaxReal(a: real, b: real): real { if a < b then b else a }

  /** std::clamp as min(max(x, lo), hi): when hi < lo the standard leaves it undefined, and this is
      what the GNU library computes. */
  function ClampInt(x: int, lo: int, hi: int): int {
    Min(Max(x, lo), hi)
  }

  function ClampReal(x: real, lo: real, hi: real): (r: real)
    requires lo <= hi
  {
    if x < lo then lo else if hi < x then hi else x
  }

  /** std::ceil: the least integer that is no smaller. */
  function Ceil(x: real): (r: int)
    ensures (r - 1) as real < x <= r as real
  {
    -(-x).Floor
  }

  /** The least whole number that is no smaller. */
  predicate RoundedUp(x: real, k: nat) { (k - 1) as real < x <= k as real }

  lemma CeilIs(x: real, k: nat)
    requires x >= 0.0
    ensures RoundedUp(x, k) <==> Ceil(x) == k
  {
  }

  /** The least whole number no smaller than the product. */
  ghost predicate RaisedBy(base: nat, factor: real, k: nat) {
    forall x: real :: IsProduct(base, factor, x) ==> RoundedUp(x, k)
  }

  predicate IsProduct(base: nat, factor: real, x: real) { x == base as real * factor }

  lemma RaisedUp(base: nat, factor: real, k: nat, x: real)
    requires factor >= 0.0 && RaisedBy(base, factor, k) && x == base as real * factor
    ensures Ceil(x) == k
  {
    assert IsProduct(base, factor, x);
  }

  /** std::llround: the nearest integer, halves away from zero. */
  function Round(x: real): (r: int)
    ensures -0.5 <= r as real - x <= 0.5
    ensures x >= 0.0 ==> r >= 0
  {
    if x >= 0.0 then (x + 0.5).Floor else -(-x + 0.5).Floor
  }

  lemma NonNegative(a: real, b: real)
    requires a >= 0.0 && b >= 0.0
    ensures a * b >= 0.0
  {
  }

  /** (x + n) % n for an offset that wraps at most once. */
  lemma WrapOnce(x: nat, n: nat)
    requires n > 0 && x < 2 * n
    ensures x % n == if x < n then x else x - n
  {
    if x >= n { assert x % n == (x - n) % n; }
  }

  lemma MulMonotone(a: nat, b: nat, k: nat)
    requires a <= b
    ensures a * k <= b * k
  {
  }

  lemma {:induction false} MulStrict(a: int, b: int, n: nat)
    requires a < b
    ensures a * n + n <= b * n
    decreases b - a
  {
    if a + 1 < b { MulStrict(a, b - 1, n); }
  }

  /** A quotient and a remainder in range are the quotient and the remainder. */
  lemma ModUnique(x: int, q: int, r: nat, n: nat)
    requires r < n && x == q * n + r
    ensures x % n == r
  {
    var q' := x / n;
    assert x == q' * n + x % n;
    if q > q' {
      MulStrict(q', q, n);
    } else if q < q' {
      MulStrict(q, q', n);
    }
  }

  lemma Divides(n: nat, k: nat) returns (m: nat)
    requires k > 0 && n % k == 0
    ensures n == m * k
  {
    m := n / k;
  }

  lemma AddMod(a: nat, k: nat, n: nat)
    requires n > 0
    ensures (a + k) % n == (a % n + k) % n
  {
    var x := a % n + k;
    var q, p := a / n, x / n;
    assert a == q * n + a % n && x == p * n + x % n;
    assert (q + p) * n == q * n + p * n;
    ModUnique(a + k, q + p, x % n, n);
  }

  lemma SharesSumToOne(a: real, b: real, c: real, sum: real)
    requires sum > 0.0 && a + b + c == sum
    ensures a / sum + b / sum + c / sum == 1.0
  {
    assert a / sum + b / sum + c / sum == (a + b + c) / sum;
  }

  /** Number of batches of k needed for n items. */
  function CeilDiv(n: nat, k: nat): (r: nat)
    requires k > 0
    ensures (r - 1) * k < n <= r * k
  {
    (n + k - 1) / k
  }

  /** ceil(2 * sqrt(n)): the least k with k * k >= 4 * n. */
  function CeilTwoSqrt(n: nat): (k: nat)
    ensures k * k >= 4 * n && (k > 0 ==> (k - 1) * (k - 1) < 4 * n)
  {
    LeastRoot(4 * n, 0)
  }

  function LeastRoot(m: nat, from: nat): (k: nat)
    requires from == 0 || (from - 1) * (from - 1) < m
    ensures k * k >= m && (k > 0 ==> (k - 1) * (k - 1) < m)
    decreases m + 1 - from
  {
    if from * from >= m then from else
      assert from < m + 1 by { assert from * from >= from; }
      LeastRoot(m, from + 1)
  }

  lemma CeilTwoSqrtMonotone(a: nat, b: nat)
    requires a <= b
    ensures CeilTwoSqrt(a) <= CeilTwoSqrt(b)
  {
    var ka, kb := CeilTwoSqrt(a), CeilTwoSqrt(b);
    if kb < ka {
      SquareMonotone(kb, ka - 1);
    }
  }

  lemma SquareMonotone(a: nat, b: nat)
    requires a <= b
    ensures a * a <= b * b
  {
    assert b * b - a * a == (b - a) * (b + a);
  }
}
