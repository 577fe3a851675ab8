/** Timers of the event loop: expiry bookkeeping, how long to block in `poll`, and the pass over
    the expired ones. Widths and casts are those of the program. */
module Timers {
  import opened Handles

  const UINT64_SIZE := 0x1_0000_0000_0000_0000
  const INT32_LIMIT := 0x8000_0000

  /** DEFAULT_POLL_MSEC_WAIT. */
  const DEFAULT_WAIT := 3000

  type Int32 = i: int | -INT32_LIMIT <= i < INT32_LIMIT
  type Uint64 = n: nat | n < UINT64_SIZE

  /** `static_cast<uint64_t>` of an interval. */
  function ToUint64(i: Int32): Uint64 {
    if i >= 0 then i else i + UINT64_SIZE
  }

  /** `(int32_t)` of a 64-bit time. */
  function ToInt32(n: Uint64): (i: Int32)
    ensures i <= n
    ensures i == n <==> n < INT32_LIMIT
    ensures i < 0 <==> n % UINT32_SIZE >= INT32_LIMIT
  {
    var low := n % UINT32_SIZE;
    if low < INT32_LIMIT then low else low - UINT32_SIZE
  }

  function Sum(a: Uint64, b: Uint64): Uint64 {
    (a + b) % UINT64_SIZE
  }

  // ----- one timer -----

  /** `lastReset` is when the expiry was last computed. */
  datatype Timer = Timer(interval: Int32, expiry: Uint64, repeat: bool, enabled: bool, lastReset: Uint64)

  /** The calls the program makes on a timer, each with the clock it reads. */
  datatype Call =
    | SetInterval(msec: Int32, now: Uint64)
    | SetEnabled(option: bool, now: Uint64)
    | SetRepeat(option: bool)
    | ResetExpiry(now: Uint64)
    | Toggle(enabled: bool, msec: Int32, now: Uint64, later: Uint64)

  function Reset(t: Timer, now: Uint64): Timer {
    t.(expiry := Sum(now, ToUint64(t.interval)), lastReset := now)
  }

  function WithInterval(t: Timer, msec: Int32, now: Uint64): Timer {
    if t.enabled then Reset(t.(interval := msec), now) else t.(interval := msec)
  }

  function WithEnabled(t: Timer, option: bool, now: Uint64): Timer {
    if option then Reset(t.(enabled := true), now) else t.(enabled := false)
  }

  function Apply(t: Timer, call: Call): Timer {
    match call
    case SetInterval(msec, now) => WithInterval(t, msec, now)
    case SetEnabled(option, now) => WithEnabled(t, option, now)
    case SetRepeat(option) => t.(repeat := option)
    case ResetExpiry(now) => Reset(t, now)
    case Toggle(option, msec, now, later) => WithInterval(WithEnabled(t, option, now), msec, later)
  }

  function ApplyAll(t: Timer, calls: seq<Call>): Timer
    decreases |calls|
  {
    if calls == [] then t else ApplyAll(Apply(t, calls[0]), calls[1..])
  }

  predicate ExpiryOk(t: Timer) {
    t.enabled ==> t.expiry == Sum(t.lastReset, ToUint64(t.interval))
  }

  function Constructed(msec: Int32, repeat: bool, enabled: bool, now: Uint64): Timer {
    Reset(Timer(msec, 0, repeat, enabled, now), now)
  }

  /** However a timer is used, while it is enabled it expires its current interval after its last
      reset; for the intervals D-Bus gives there is no wrap-around in that. */
  lemma {:induction false} ExpiryFollowsInterval(t: Timer, calls: seq<Call>)
    requires ExpiryOk(t)
    ensures ExpiryOk(ApplyAll(t, calls))
    ensures var u := ApplyAll(t, calls);
            u.enabled && 0 <= u.lastReset + u.interval < UINT64_SIZE ==> u.expiry == u.lastReset + u.interval
    decreases |calls|
  {
    if calls != [] {
      ExpiryFollowsInterval(Apply(t, calls[0]), calls[1..]);
    }
  }

  // ----- what the calls leave, read from the last one backwards -----

  /** The argument of the last call that enables or disables, and otherwise what it was at first. */
  function LastEnabled(first: bool, calls: seq<Call>): bool
    decreases |calls|
  {
    if calls == [] then first
    else
      match calls[|calls| - 1]
      case SetEnabled(option, _) => option
      case Toggle(option, _, _, _) => option
      case _ => LastEnabled(first, calls[..|calls| - 1])
  }

  function LastInterval(first: Int32, calls: seq<Call>): Int32
    decreases |calls|
  {
    if calls == [] then first
    else
      match calls[|calls| - 1]
      case SetInterval(msec, _) => msec
      case Toggle(_, msec, _, _) => msec
      case _ => LastInterval(first, calls[..|calls| - 1])
  }

  function LastRepeat(first: bool, calls: seq<Call>): bool
    decreases |calls|
  {
    if calls == [] then first
    else
      match calls[|calls| - 1]
      case SetRepeat(option) => option
      case _ => LastRepeat(first, calls[..|calls| - 1])
  }

  /** The clock of the last call that had to reset: any explicit reset, any that enables, and a change of
      the interval while enabled. */
  function LastResetAt(first: Uint64, enabled: bool, calls: seq<Call>): Uint64
    decreases |calls|
  {
    if calls == [] then first
    else
      var earlier := calls[..|calls| - 1];
      match calls[|calls| - 1]
      case ResetExpiry(now) => now
      case SetEnabled(true, now) => now
      case Toggle(true, _, _, later) => later
      case SetInterval(_, now) =>
        if LastEnabled(enabled, earlier) then now else LastResetAt(first, enabled, earlier)
      case _ => LastResetAt(first, enabled, earlier)
  }

  lemma {:induction false} ApplyAllSnoc(t: Timer, calls: seq<Call>)
    requires calls != []
    ensures ApplyAll(t, calls) == Apply(ApplyAll(t, calls[..|calls| - 1]), calls[|calls| - 1])
    decreases |calls|
  {
    hide Apply;
    if |calls| > 1 {
      ApplyAllSnoc(Apply(t, calls[0]), calls[1..]);
      assert calls[1..][..|calls| - 2] == calls[..|calls| - 1][1..];
    }
  }

  /** After any calls the timer is as the last call that set each of its fields says. */
  lemma {:induction false} LastCallWins(t: Timer, calls: seq<Call>)
    ensures var u := ApplyAll(t, calls);
            && u.enabled == LastEnabled(t.enabled, calls)
            && u.interval == LastInterval(t.interval, calls)
            && u.repeat == LastRepeat(t.repeat, calls)
            && u.lastReset == LastResetAt(t.lastReset, t.enabled, calls)
    decreases |calls|
  {
    if calls != [] {
      ApplyAllSnoc(t, calls);
      LastCallWins(t, calls[..|calls| - 1]);
    }
  }

  class Timeout {
    var interval: Int32
    var expiry: Uint64
    var repeat: bool
    var enabled: bool
    ghost var lastReset: Uint64

    ghost function View(): Timer
      reads this
    {
      Timer(interval, expiry, repeat, enabled, lastReset)
    }

    constructor (msec: Int32, repeat: bool, enabled: bool, now: Uint64)
      ensures View() == Constructed(msec, repeat, enabled, now) && ExpiryOk(View())
      ensures this.interval == msec && this.repeat == repeat && this.enabled == enabled
      ensures lastReset == now && expiry == (now + msec) % UINT64_SIZE
    {
      this.interval, this.expiry, this.repeat, this.enabled, this.lastReset := msec, 0, repeat, enabled, now;
      new;
      DoResetExpiry(now);
    }

    method DoResetExpiry(now: Uint64)
      modifies this
      ensures View() == Apply(old(View()), ResetExpiry(now)) && ExpiryOk(View())
      ensures lastReset == now && expiry == (now + interval) % UINT64_SIZE
      ensures interval == old(interval) && repeat == old(repeat) && enabled == old(enabled)
    {
      expiry := (now + ToUint64(interval)) % UINT64_SIZE;
      lastReset := now;
    }

    method DoSetInterval(msec: Int32, now: Uint64)
      modifies this
      ensures View() == Apply(old(View()), SetInterval(msec, now))
      ensures interval == msec && repeat == old(repeat) && enabled == old(enabled)
      ensures enabled ==> lastReset == now && expiry == (now + msec) % UINT64_SIZE
      ensures !enabled ==> lastReset == old(lastReset) && expiry == old(expiry)
      ensures old(ExpiryOk(View())) ==> ExpiryOk(View())
    {
      interval := msec;
      if enabled {
        DoResetExpiry(now);
      }
    }

    method DoSetEnabled(option: bool, now: Uint64)
      modifies this
      ensures View() == Apply(old(View()), SetEnabled(option, now))
      ensures enabled == option && interval == old(interval) && repeat == old(repeat)
      ensures option ==> lastReset == now && expiry == (now + interval) % UINT64_SIZE
      ensures !option ==> lastReset == old(lastReset) && expiry == old(expiry)
      ensures old(ExpiryOk(View())) ==> ExpiryOk(View())
    {
      enabled := option;
      if enabled {
        DoResetExpiry(now);
      }
    }

    method DoSetRepeat(option: bool)
      modifies this
      ensures View() == Apply(old(View()), SetRepeat(option))
      ensures repeat == option && interval == old(interval) && enabled == old(enabled)
      ensures lastReset == old(lastReset) && expiry == old(expiry)
      ensures old(ExpiryOk(View())) ==> ExpiryOk(View())
    {
      repeat := option;
    }

    /** The interval may have changed between toggles, so it is read again. */
    method DoToggle(option: bool, msec: Int32, now: Uint64, later: Uint64)
      modifies this
      ensures View() == Apply(old(View()), Toggle(option, msec, now, later))
      ensures enabled == option && interval == msec && repeat == old(repeat)
      ensures option ==> lastReset == later && expiry == (later + msec) % UINT64_SIZE
      ensures !option ==> lastReset == old(lastReset) && expiry == old(expiry)
      ensures old(ExpiryOk(View())) ==> ExpiryOk(View())
    {
      DoSetEnabled(option, now);
      DoSetInterval(msec, later);
    }
  }

  // ----- how long to wait -----

  predicate Expired(t: Timer, now: Uint64) {
    t.enabled && now >= t.expiry
  }

  predicate AnyExpired(timers: seq<Timer>, now: Uint64) {
    exists k :: 0 <= k < |timers| && Expired(timers[k], now)
  }

  /** The least of the default wait and the times left, cast as the program casts them. */
  function LeastWait(timers: seq<Timer>, now: Uint64): int
    requires !AnyExpired(timers, now)
  {
    if timers == [] then DEFAULT_WAIT
    else
      assert !Expired(timers[|timers| - 1], now);
      var least := LeastWait(timers[..|timers| - 1], now);
      var t := timers[|timers| - 1];
      if t.enabled && ToInt32(t.expiry - now) < least then ToInt32(t.expiry - now) else least
  }

  /** The loop over all timers that computes the time-out of `poll`; it stops early at a timer that
      has expired already. */
  method MinWait(timers: seq<Timer>, now: Uint64) returns (minWait: int)
    ensures minWait == if AnyExpired(timers, now) then 0 else LeastWait(timers, now)
  {
    minWait := DEFAULT_WAIT;
    var k := 0;
    while k < |timers|
      invariant 0 <= k <= |timers|
      invariant !AnyExpired(timers[..k], now) && minWait == LeastWait(timers[..k], now)
    {
      if timers[k].enabled {
        if now >= timers[k].expiry {
          assert Expired(timers[k], now);
          return 0;
        }
        var remaining := ToInt32(timers[k].expiry - now);
        if remaining < minWait {
          minWait := remaining;
        }
      }
      k := k + 1;
      assert timers[..k][..k - 1] == timers[..k - 1];
    }
    assert timers[..k] == timers;
  }

  /** A timer in use: it has been reset in the past, to a non-negative interval. */
  predicate InUse(t: Timer, now: Uint64) {
    t.enabled ==> ExpiryOk(t) && t.lastReset <= now && 0 <= t.interval && t.lastReset + t.interval < UINT64_SIZE
  }

  /** The time left, as a mathematical number. */
  function TimeLeft(t: Timer, now: Uint64): int {
    t.lastReset + t.interval - now
  }

  /** What D-Bus asks for is a non-negative interval, and the clock has not passed `now`. */
  predicate CallOk(call: Call, now: Uint64) {
    match call
    case SetInterval(msec, at) => 0 <= msec && at <= now
    case SetEnabled(_, at) => at <= now
    case SetRepeat(_) => true
    case ResetExpiry(at) => at <= now
    case Toggle(_, msec, at, later) => 0 <= msec && at <= now && later <= now
  }

  /** Any timer that has only been used so is in use in the sense of the loop below. */
  lemma {:induction false} UsedTimersAreInUse(t: Timer, calls: seq<Call>, now: Uint64)
    requires ExpiryOk(t) && t.lastReset <= now && 0 <= t.interval && now + INT32_LIMIT <= UINT64_SIZE
    requires forall k :: 0 <= k < |calls| ==> CallOk(calls[k], now)
    ensures InUse(ApplyAll(t, calls), now)
    decreases |calls|
  {
    if calls != [] {
      assert CallOk(calls[0], now);
      var u := Apply(t, calls[0]);
      assert ExpiryOk(u) && u.lastReset <= now && 0 <= u.interval;
      UsedTimersAreInUse(u, calls[1..], now);
    }
  }

  lemma {:induction false} LeastWaitIsLeast(timers: seq<Timer>, now: Uint64)
    requires !AnyExpired(timers, now) && forall k :: 0 <= k < |timers| ==> InUse(timers[k], now)
    ensures var w := LeastWait(timers, now);
            && 0 < w <= DEFAULT_WAIT
            && (forall k :: 0 <= k < |timers| && timers[k].enabled ==> w <= TimeLeft(timers[k], now))
            && (w == DEFAULT_WAIT || exists k :: 0 <= k < |timers| && timers[k].enabled && w == TimeLeft(timers[k], now))
  {
    if timers != [] {
      var n := |timers| - 1;
      assert !Expired(timers[n], now) && InUse(timers[n], now);
      forall k | 0 <= k < n ensures !Expired(timers[..n][k], now) && InUse(timers[..n][k], now) {
        assert timers[..n][k] == timers[k];
      }
      LeastWaitIsLeast(timers[..n], now);
      forall k | 0 <= k < |timers| && timers[k].enabled ensures LeastWait(timers, now) <= TimeLeft(timers[k], now) {
        if k < n {
          assert timers[..n][k] == timers[k];
        }
      }
    }
  }

  /** With a clock that does not run backwards, and timers as D-Bus sets them up, the wait is 0 if
      some enabled timer has expired, else the least of 3000 and the times left: no cast loses
      anything, and `poll` never blocks past the expiry of a timer. */
  lemma NeverOversleeps(timers: seq<Timer>, now: Uint64)
    requires forall k :: 0 <= k < |timers| ==> InUse(timers[k], now)
    ensures var w := if AnyExpired(timers, now) then 0 else LeastWait(timers, now);
            && 0 <= w <= DEFAULT_WAIT
            && (w == 0 <==> exists k :: 0 <= k < |timers| && timers[k].enabled && now >= timers[k].lastReset + timers[k].interval)
            && (forall k :: 0 <= k < |timers| && timers[k].enabled ==> w == 0 || now + w <= timers[k].lastReset + timers[k].interval)
            && (w == 0 || w == DEFAULT_WAIT || exists k :: 0 <= k < |timers| && timers[k].enabled && w == TimeLeft(timers[k], now))
  {
    if AnyExpired(timers, now) {
      var k :| 0 <= k < |timers| && Expired(timers[k], now);
      assert timers[k].enabled && InUse(timers[k], now);
    } else {
      LeastWaitIsLeast(timers, now);
      forall k | 0 <= k < |timers| && timers[k].enabled ensures now < timers[k].lastReset + timers[k].interval {
        assert InUse(timers[k], now) && !Expired(timers[k], now);
      }
    }
  }

  /** For any timers at all: the wait is negative, which makes `poll` block for ever, exactly when no
      timer has expired and the time left of an enabled one has bit 31 set. */
  lemma {:induction false} BlocksForeverIff(timers: seq<Timer>, now: Uint64)
    requires !AnyExpired(timers, now)
    ensures LeastWait(timers, now) < 0 <==>
              exists k :: 0 <= k < |timers| && timers[k].enabled && (timers[k].expiry - now) % UINT32_SIZE >= INT32_LIMIT
  {
    if timers != [] {
      var n := |timers| - 1;
      assert !Expired(timers[n], now);
      forall k | 0 <= k < n ensures timers[..n][k] == timers[k] {
      }
      BlocksForeverIff(timers[..n], now);
      if LeastWait(timers[..n], now) < 0 {
        var k :| 0 <= k < n && timers[..n][k].enabled && (timers[..n][k].expiry - now) % UINT32_SIZE >= INT32_LIMIT;
        assert timers[k].enabled;
      }
    }
  }

  // ----- handling the expired timers -----

  type Id = nat

  /** The timers that are enabled and expired, in container order. */
  method CollectExpired(order: seq<Id>, timers: map<Id, Timer>, now: Uint64) returns (expired: seq<Id>)
    requires forall k :: 0 <= k < |order| ==> order[k] in timers
    requires forall j, k :: 0 <= j < k < |order| ==> order[j] != order[k]
    ensures forall t :: t in expired <==> t in order && t in timers && timers[t].enabled && now >= timers[t].expiry
    ensures forall j, k :: 0 <= j < k < |expired| ==> expired[j] != expired[k]
  {
    expired := [];
    for i := 0 to |order|
      invariant forall t :: t in expired <==> t in order[..i] && t in timers && Expired(timers[t], now)
      invariant forall j, k :: 0 <= j < k < |expired| ==> expired[j] != expired[k]
    {
      if Expired(timers[order[i]], now) {
        expired := expired + [order[i]];
      }
      assert order[..i + 1] == order[..i] + [order[i]];
    }
  }

  /** A periodic timer is reset before it is handled. */
  function Rearmed(t: Timer, now: Uint64): Timer {
    if t.repeat then Reset(t, now) else t
  }

  /** What the handler of one timer does to the others: some it removes, some it toggles or gives a new
      interval. */
  datatype Effect = Effect(removes: set<Id>, changes: map<Id, Timer>)

  function AfterHandler(timers: map<Id, Timer>, e: Effect): map<Id, Timer> {
    map t | t in timers && t !in e.removes :: if t in e.changes then e.changes[t] else timers[t]
  }

  /** The timers after the first `k` expired ones have been re-armed, if periodic, and handled. */
  function AfterPass(expired: seq<Id>, timers: map<Id, Timer>, effects: seq<Effect>, clocks: seq<Uint64>, k: nat): map<Id, Timer>
    requires k <= |expired| == |effects| == |clocks|
  {
    if k == 0 then timers
    else
      var before := AfterPass(expired, timers, effects, clocks, k - 1);
      var t := expired[k - 1];
      AfterHandler(if t in before then before[t := Rearmed(before[t], clocks[k - 1])] else before, effects[k - 1])
  }

  /** Some handler removes a timer that is yet to be handled. */
  predicate UsesDeleted(expired: seq<Id>, effects: seq<Effect>)
    requires |effects| == |expired|
  {
    exists j, k :: 0 <= j < k < |expired| && expired[k] in effects[j].removes
  }

  /** For instance, two timers have expired, and handling the first removes the second. */
  lemma FirstRemovesSecond()
    ensures UsesDeleted([3, 5], [Effect({5}, map[]), Effect({}, map[])])
  {
    assert [3, 5][1] in [Effect({5}, map[]), Effect({}, map[])][0].removes;
  }

  lemma {:induction false} LeftAfterPass(expired: seq<Id>, timers: map<Id, Timer>, effects: seq<Effect>, clocks: seq<Uint64>,
                                         k: nat, t: Id)
    requires k <= |expired| == |effects| == |clocks|
    ensures t in AfterPass(expired, timers, effects, clocks, k) <==> t in timers && forall j :: 0 <= j < k ==> t !in effects[j].removes
  {
    if k > 0 {
      LeftAfterPass(expired, timers, effects, clocks, k - 1, t);
    }
  }

  /** A timer that no handler removes or changes is as before, but for being re-armed when its turn came. */
  lemma {:induction false} UntouchedTimer(expired: seq<Id>, timers: map<Id, Timer>, effects: seq<Effect>, clocks: seq<Uint64>,
                                          k: nat, t: Id)
    requires k <= |expired| == |effects| == |clocks| && t in timers
    requires forall i, j :: 0 <= i < j < |expired| ==> expired[i] != expired[j]
    requires forall j :: 0 <= j < k ==> t !in effects[j].removes && t !in effects[j].changes
    ensures var left := AfterPass(expired, timers, effects, clocks, k);
            && t in left
            && (t !in expired[..k] ==> left[t] == timers[t])
            && (forall j :: 0 <= j < k && expired[j] == t ==>
                  && left[t].interval == timers[t].interval && left[t].repeat == timers[t].repeat
                  && left[t].enabled == timers[t].enabled
                  && (timers[t].repeat ==>
                        left[t].lastReset == clocks[j] && left[t].expiry == (clocks[j] + timers[t].interval) % UINT64_SIZE)
                  && (!timers[t].repeat ==> left[t] == timers[t]))
  {
    if k > 0 {
      UntouchedTimer(expired, timers, effects, clocks, k - 1, t);
      assert expired[..k] == expired[..k - 1] + [expired[k - 1]];
    }
  }

  /** Handle the expired timers one after the other, reading the clock `clocks[k]` for `expired[k]`. The
      pass does not look whether a timer still exists, or is still enabled, before it uses it, and so
      touches a deleted timer exactly when some handler removes a timer that is yet to be handled;
      otherwise each is handled once, in order, a periodic one with its expiry already moved on. */
  method HandleExpired(expired: seq<Id>, timers: map<Id, Timer>, effects: seq<Effect>, clocks: seq<Uint64>)
    returns (handled: seq<Id>, left: map<Id, Timer>, fault: bool)
    requires |effects| == |clocks| == |expired| && forall k :: 0 <= k < |expired| ==> expired[k] in timers
    ensures fault <==> UsesDeleted(expired, effects)
    ensures !fault ==> handled == expired
    ensures left == AfterPass(expired, timers, effects, clocks, |expired|)
  {
    handled, left, fault := [], timers, false;
    for i := 0 to |expired|
      invariant fault <==> exists j, k :: 0 <= j < k < i && expired[k] in effects[j].removes
      invariant !fault ==> handled == expired[..i]
      invariant left == AfterPass(expired, timers, effects, clocks, i)
    {
      LeftAfterPass(expired, timers, effects, clocks, i, expired[i]);
      if expired[i] in left {
        left := left[expired[i] := Rearmed(left[expired[i]], clocks[i])];
        handled := handled + [expired[i]];
      } else {
        fault := true;
      }
      left := AfterHandler(left, effects[i]);
      assert expired[..i + 1] == expired[..i] + [expired[i]];
    }
    assert expired[..|expired|] == expired;
  }
}
