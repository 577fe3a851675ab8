/** The counting semaphore built from a mutex and a condition variable. */
module Semaphores {

  const NSEC_PER_SEC := 1_000_000_000
  const NSEC_PER_MSEC := 1_000_000

  /** How one sleep on the condition variable ends, and the posts other threads made meanwhile. */
  datatype Wakeup = Wakeup(posts: nat, result: Sleep)
  datatype Sleep = Woken | TimedOut | Failed

  /** What came of a wait: the semaphore was taken, or it was not, or the thread is still asleep. */
  datatype Wait = Taken | NotTaken | Asleep

  function Capped(n: int, max: int): (c: int)
    ensures n <= max ==> c == n
  {
    if n < max then n else max
  }

  /** Everything a wait does to the count, as a function of how the sleeps end. */
  function WaitFrom(n: nat, max: nat, wakeups: seq<Wakeup>): (r: (nat, Wait))
    requires n <= max
    ensures r.0 <= max
    decreases |wakeups|
  {
    if n >= 1 then (n - 1, Taken)
    else if wakeups == [] then (n, Asleep)
    else
      var m := Capped(n + wakeups[0].posts, max);
      if wakeups[0].result.Woken? then WaitFrom(m, max, wakeups[1..]) else (m, NotTaken)
  }

  /** The posts of `wakeups` that find room until the wait is over. */
  function Accepted(n: nat, max: nat, wakeups: seq<Wakeup>): nat
    requires n <= max
    decreases |wakeups|
  {
    if n >= 1 || wakeups == [] then 0
    else
      var m := Capped(n + wakeups[0].posts, max);
      m - n + if wakeups[0].result.Woken? then Accepted(m, max, wakeups[1..]) else 0
  }

  /** Whatever happens while the thread sleeps, a wait takes exactly one unit if it reports success
      and none otherwise: no accepted post is lost, not even to a sleep that times out. */
  lemma {:induction false} WaitConserves(n: nat, max: nat, wakeups: seq<Wakeup>)
    requires n <= max
    ensures var (m, w) := WaitFrom(n, max, wakeups);
            m == n + Accepted(n, max, wakeups) - if w.Taken? then 1 else 0
    decreases |wakeups|
  {
    if n < 1 && wakeups != [] && wakeups[0].result.Woken? {
      WaitConserves(Capped(n + wakeups[0].posts, max), max, wakeups[1..]);
    }
  }

  /** A thread sleeps on only while nothing at all has been posted. */
  lemma {:induction false} AsleepMeansNothingPosted(n: nat, max: nat, wakeups: seq<Wakeup>)
    requires n <= max && max > 0
    ensures WaitFrom(n, max, wakeups).1.Asleep? <==>
              n == 0 && forall i :: 0 <= i < |wakeups| ==> wakeups[i] == Wakeup(0, Woken)
    decreases |wakeups|
  {
    if n < 1 && wakeups != [] && wakeups[0].result.Woken? {
      AsleepMeansNothingPosted(Capped(n + wakeups[0].posts, max), max, wakeups[1..]);
      if wakeups[0].posts == 0 {
        assert forall i :: 1 <= i < |wakeups| ==> wakeups[i] == wakeups[1..][i - 1];
        assert forall i :: 0 <= i < |wakeups[1..]| ==> wakeups[1..][i] == wakeups[i + 1];
      }
    }
  }

  /** What a wait comes to. A unit that is there is taken at once. Otherwise the first sleep decides that
      brings a post or does not end with a wake-up: the wait takes a unit if it was woken, and gives up,
      leaving what was posted, if it was not. */
  lemma {:induction false} FirstEventDecides(n: nat, max: nat, wakeups: seq<Wakeup>, i: nat)
    requires n <= max && max > 0
    requires n == 0 ==> i < |wakeups| && wakeups[i] != Wakeup(0, Woken) && forall j :: 0 <= j < i ==> wakeups[j] == Wakeup(0, Woken)
    ensures n >= 1 ==> WaitFrom(n, max, wakeups) == (n - 1, Taken)
    ensures n == 0 ==>
              var posted := if wakeups[i].posts < max then wakeups[i].posts else max;
              WaitFrom(n, max, wakeups) == if wakeups[i].result.Woken? then (posted - 1, Taken) else (posted, NotTaken)
    decreases |wakeups|
  {
    if n == 0 && i > 0 {
      assert wakeups[0] == Wakeup(0, Woken);
      assert forall j :: 0 <= j < |wakeups[1..]| ==> wakeups[1..][j] == wakeups[j + 1];
      FirstEventDecides(0, max, wakeups[1..], i - 1);
    }
  }

  class Semaphore {
    var n: nat
    const max: nat
    ghost const initial: nat
    ghost var accepted: nat
    ghost var taken: nat

    ghost predicate Valid()
      reads this
    {
      n <= max && max > 0 && n == initial + accepted - taken
    }

    /** A semaphore that starts at zero is binary, whatever maximum is asked for. */
    constructor (n: nat, max: nat)
      requires n <= max
      ensures Valid() && this.n == initial == n && accepted == taken == 0
      ensures this.max == if n == 0 then 1 else max
    {
      this.n := n;
      this.max := if n == 0 then 1 else max;
      initial, accepted, taken := n, 0, 0;
    }

    /** A post beyond the maximum is dropped. */
    method Post() returns (ok: bool)
      requires Valid()
      modifies this
      ensures Valid() && taken == old(taken)
      ensures ok <==> old(n) < max
      ensures n == (if ok then old(n) + 1 else old(n)) && accepted == (if ok then old(accepted) + 1 else old(accepted))
    {
      ok := n < max;
      if ok {
        n, accepted := n + 1, accepted + 1;
      }
    }

    /** What the other threads do while this one sleeps. */
    method OthersPost(posts: nat)
      requires Valid()
      modifies this
      ensures Valid() && taken == old(taken) && n == Capped(old(n) + posts, max)
    {
      var i := 0;
      while i < posts
        invariant 0 <= i <= posts && Valid() && taken == old(taken)
        invariant n == Capped(old(n) + i, max)
      {
        var ok := Post();
        i := i + 1;
      }
    }

    /** Both waits: the untimed one never sees a sleep time out or fail. */
    method WaitTimed(wakeups: seq<Wakeup>) returns (r: Wait)
      requires Valid()
      modifies this
      ensures Valid()
      ensures (n, r) == WaitFrom(old(n), max, wakeups)
      ensures taken == if r.Taken? then old(taken) + 1 else old(taken)
    {
      var i := 0;
      while n < 1
        invariant 0 <= i <= |wakeups| && Valid() && taken == old(taken)
        invariant WaitFrom(n, max, wakeups[i..]) == WaitFrom(old(n), max, wakeups)
        decreases |wakeups| - i
      {
        if i == |wakeups| {
          return Asleep;
        }
        assert wakeups[i..][0] == wakeups[i] && wakeups[i..][1..] == wakeups[i + 1..];
        OthersPost(wakeups[i].posts);
        if !wakeups[i].result.Woken? {
          return NotTaken;
        }
        i := i + 1;
      }
      n, taken := n - 1, taken + 1;
      r := Taken;
    }
  }

  // ----- the deadline of a timed wait -----

  /** Division and remainder as C computes them, truncating toward zero. */
  function Quotient(a: int, b: int): int
    requires b > 0
  {
    if a >= 0 then a / b else -((-a) / b)
  }

  function Remainder(a: int, b: int): (r: int)
    requires b > 0
    ensures -b < r < b
  {
    a - b * Quotient(a, b)
  }

  datatype TimeSpec = TimeSpec(sec: int, nsec: int)

  function Nanoseconds(t: TimeSpec): int {
    t.sec * NSEC_PER_SEC + t.nsec
  }

  predicate Normalized(t: TimeSpec) {
    0 <= t.nsec < NSEC_PER_SEC
  }

  /** The absolute time at which a timed wait gives up: exactly `milliseconds` after now, and
      normalized unless a negative time-out reaches back across the start of the second. */
  method Deadline(now: TimeSpec, milliseconds: int) returns (abstime: TimeSpec)
    requires Normalized(now)
    ensures Nanoseconds(abstime) == Nanoseconds(now) + milliseconds * NSEC_PER_MSEC
    ensures Normalized(abstime) <==> now.nsec + Remainder(milliseconds, 1000) * NSEC_PER_MSEC >= 0
  {
    abstime := TimeSpec(now.sec + Quotient(milliseconds, 1000), now.nsec + Remainder(milliseconds, 1000) * NSEC_PER_MSEC);
    if abstime.nsec >= NSEC_PER_SEC {
      abstime := TimeSpec(abstime.sec + 1, abstime.nsec - NSEC_PER_SEC);
    }
  }
}
