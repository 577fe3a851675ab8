/** The 32-bit command handle counter of the dispatcher. */
module Handles {

  const UINT32_SIZE: nat := 0x1_0000_0000

  type Uint32 = n: nat | n < UINT32_SIZE

  const INVALID_HANDLE: Uint32 := 0
  /** Zero is skipped, so the handles repeat one step earlier than the counter wraps. */
  const PERIOD: nat := UINT32_SIZE - 1

  /** One call of `getNextHandle`: an unsigned increment that steps over the invalid handle. */
  function NextHandle(counter: Uint32): (h: Uint32)
    ensures h != INVALID_HANDLE
  {
    var h := (counter + 1) % UINT32_SIZE;
    if h == INVALID_HANDLE then (h + 1) % UINT32_SIZE else h
  }

  /** The counter after `n` calls, starting from the invalid handle. */
  function CounterAfter(n: nat): Uint32 {
    if n == 0 then INVALID_HANDLE else NextHandle(CounterAfter(n - 1))
  }

  /** Closed form: the handle given out by the `n`-th call. */
  function HandleAt(n: nat): (h: Uint32)
    ensures h == INVALID_HANDLE <==> n == 0
  {
    if n == 0 then INVALID_HANDLE else (n - 1) % PERIOD + 1
  }

  lemma ModSuccessor(k: nat, p: nat)
    requires p > 1
    ensures (k + 1) % p == if k % p == p - 1 then 0 else k % p + 1
  {
    var q, r := k / p, k % p;
    assert k == p * q + r;
    if r == p - 1 {
      assert k + 1 == p * (q + 1) + 0;
      ModUnique(k + 1, p, q + 1, 0);
    } else {
      ModUnique(k + 1, p, q, r + 1);
    }
  }

  lemma {:induction false} PositiveMultiple(p: nat, d: nat)
    requires d > 0
    ensures p * d >= p
  {
    if d > 1 {
      PositiveMultiple(p, d - 1);
      assert p * d == p * (d - 1) + p;
    }
  }

  lemma ModUnique(k: int, p: nat, q: int, r: nat)
    requires r < p && k == p * q + r
    ensures k % p == r
  {
    var q', r' := k / p, k % p;
    assert k == p * q' + r';
    var d := q - q';
    assert p * d == p * q - p * q' == r' - r;
    if d > 0 {
      PositiveMultiple(p, d);
    }
  }

  lemma NextIsHandleAt(n: nat)
    ensures NextHandle(HandleAt(n)) == HandleAt(n + 1)
  {
    if n > 0 {
      ModSuccessor(n - 1, PERIOD);
    }
  }

  /** The n-th call returns ((n-1) mod (2^32-1)) + 1. */
  lemma {:induction false} NthHandle(n: nat)
    ensures CounterAfter(n) == HandleAt(n)
    ensures n > 0 ==> CounterAfter(n) == (n - 1) % PERIOD + 1 && CounterAfter(n) != INVALID_HANDLE
  {
    if n > 0 {
      NthHandle(n - 1);
      NextIsHandleAt(n - 1);
    }
  }

  /** Two calls give the same handle exactly when they are a whole number of periods apart. */
  lemma HandlesCollide(m: nat, n: nat)
    requires m > 0 && n > 0
    ensures CounterAfter(m) == CounterAfter(n) <==> (m - n) % PERIOD == 0
  {
    NthHandle(m);
    NthHandle(n);
    var a, b := m - 1, n - 1;
    var qa, ra, qb, rb := a / PERIOD, a % PERIOD, b / PERIOD, b % PERIOD;
    assert a - b == PERIOD * (qa - qb) + (ra - rb);
    if ra >= rb {
      ModUnique(a - b, PERIOD, qa - qb, ra - rb);
    } else {
      assert a - b == PERIOD * (qa - qb - 1) + (ra - rb + PERIOD);
      ModUnique(a - b, PERIOD, qa - qb - 1, ra - rb + PERIOD);
    }
  }

  /** Any 2^32-1 consecutive handles are pairwise distinct, across the wrap-around too. */
  lemma WindowDistinct(m: nat, n: nat)
    requires 0 < m < n < m + PERIOD
    ensures HandleAt(m) != HandleAt(n)
  {
    NthHandle(m);
    NthHandle(n);
    HandlesCollide(n, m);
    assert (n - m) % PERIOD == n - m by { ModUnique(n - m, PERIOD, 0, n - m); }
  }
}
