/** Counting modulo n: how often k consecutive counter values pick each of n positions. */
module RoundRobin {

  /** The positions picked by k consecutive counter values from c on. */
  function Cycle(c: nat, k: nat, n: nat): seq<nat>
    requires n > 0
  {
    seq(k, i requires 0 <= i < k => (c + i) % n)
  }

  /** How many of the values below x pick p. */
  function Below(x: nat, n: nat, p: nat): nat
    requires p < n
  {
    (x + n - 1 - p) / n
  }

  lemma {:induction false} ProductGap(n: nat, a: int, b: int)
    requires a < b
    ensures n * a + n <= n * b
    decreases b - a
  {
    assert n * b == n * (b - 1) + n;
    if a < b - 1 {
      ProductGap(n, a, b - 1);
    }
  }

  lemma DivisionUnique(x: int, n: nat, q: int, r: int)
    requires n > 0 && x == n * q + r && 0 <= r < n
    ensures x / n == q && x % n == r
  {
    var q' := x / n;
    assert x == n * q' + x % n;
    if q' < q {
      ProductGap(n, q', q);
    } else if q < q' {
      ProductGap(n, q, q');
    }
  }

  /** Dividing what lies at most two steps above a multiple. */
  lemma DivisionOf(x: int, n: nat, q: int, s: nat)
    requires x == n * q + s && s < 2 * n
    ensures x / n == if s < n then q else q + 1
  {
    if s < n {
      DivisionUnique(x, n, q, s);
    } else {
      assert n * (q + 1) == n * q + n;
      DivisionUnique(x, n, q + 1, s - n);
    }
  }

  lemma BelowStep(x: nat, n: nat, p: nat)
    requires p < n
    ensures Below(x + 1, n, p) == Below(x, n, p) + if x % n == p then 1 else 0
  {
    DivisionOf(x + n - 1 - p, n, x / n, x % n + n - 1 - p);
    DivisionOf(x + 1 + n - 1 - p, n, x / n, x % n + n - p);
  }

  lemma CycleOneMore(c: nat, k: nat, n: nat, p: nat)
    requires p < n && k > 0
    ensures multiset(Cycle(c, k, n))[p]
            == multiset(Cycle(c, k - 1, n))[p] + if (c + k - 1) % n == p then 1 else 0
  {
    assert Cycle(c, k, n) == Cycle(c, k - 1, n) + [(c + k - 1) % n];
  }

  lemma {:induction false} CycleCount(c: nat, k: nat, n: nat, p: nat)
    requires p < n
    ensures multiset(Cycle(c, k, n))[p] == Below(c + k, n, p) - Below(c, n, p)
  {
    if k > 0 {
      CycleOneMore(c, k, n, p);
      CycleCount(c, k - 1, n, p);
      BelowStep(c + k - 1, n, p);
    }
  }

  lemma DivisionGap(x: nat, k: nat, n: nat)
    requires n > 0
    ensures k / n <= (x + k) / n - x / n <= (k + n - 1) / n
  {
    assert n * (x / n + k / n) == n * (x / n) + n * (k / n);
    DivisionOf(x + k, n, x / n + k / n, x % n + k % n);
    DivisionOf(k + n - 1, n, k / n, k % n + n - 1);
  }

  /** Each position is picked floor(k/n) or ceil(k/n) times, wherever the counter starts. */
  lemma CycleFair(c: nat, k: nat, n: nat, p: nat)
    requires p < n
    ensures k / n <= multiset(Cycle(c, k, n))[p] <= (k + n - 1) / n
  {
    CycleCount(c, k, n, p);
    DivisionGap(c + n - 1 - p, k, n);
  }
}
