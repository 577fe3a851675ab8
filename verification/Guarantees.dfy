/** What holds in every reachable state, and between any two states of a run. */
module Guarantees {
  import opened Commands
  import opened Wrappers
  import opened Connections
  import opened CoreInvariant
  import opened Invariant
  import opened Progress
  import opened Callbacks
  import opened Runs

  // ----- reachable states -----

  ghost predicate Pending(s: State, c: Id) {
    exists k :: k in s.conns && c in s.conns[k].pending
  }

  lemma ReachableIsGood(steps: seq<Step>)
    requires Run(INITIAL, steps)
    ensures Good(After(INITIAL, steps))
  {
    InitialIsGood();
    RunKeeps(INITIAL, steps);
  }

  lemma GoodCmd(s: State, c: Id)
    requires Good(s) && c in s.core.cmds
    ensures CmdOk(s.core, ParkedSet(s.core, s.conns), AttachedSet(s.core, s.conns), {}, c)
    ensures c in ParkedSet(s.core, s.conns) <==> Pending(s, c)
    ensures Pending(s, c) <==> IsParked(s.core, s.conns, c)
  {
    ParkedMeansPending(s.core, s.conns, c);
  }

  function Holders(s: State, c: Id): nat {
    (if c in s.core.held then 1 else 0)
    + Occurrences(s.core.queue, c)
    + |PendingOn(s, c)|
  }

  function Occurrences(list: seq<Id>, c: Id): nat {
    if list == [] then 0 else (if list[0] == c then 1 else 0) + Occurrences(list[1..], c)
  }

  function PendingOn(s: State, c: Id): set<Id> {
    set k | k in s.conns && c in s.conns[k].pending
  }

  lemma {:induction false} OccursOnce(list: seq<Id>, c: Id)
    requires forall i, j :: 0 <= i < j < |list| ==> list[i] != list[j]
    ensures Occurrences(list, c) == if c in list then 1 else 0
  {
    if list != [] {
      forall i, j | 0 <= i < j < |list[1..]| ensures list[1..][i] != list[1..][j] {
        assert list[i + 1] != list[j + 1];
      }
      OccursOnce(list[1..], c);
      if list[0] == c {
        forall j | 1 <= j < |list| ensures list[j] != c {
        }
      }
    }
  }

  lemma QueueHasNoRepeats(a: Core, parked: set<Id>, attached: set<Id>)
    requires CoreInv(a, parked, attached, {})
    ensures forall i, j :: 0 <= i < j < |a.queue| ==> a.queue[i] != a.queue[j]
  {
    var n := |a.taken|;
    forall i, j | 0 <= i < j < |a.queue| ensures a.queue[i] != a.queue[j] {
      assert a.accepted[n + i] == a.queue[i] && a.accepted[n + j] == a.queue[j];
      assert a.queue[i] in a.queue && a.queue[j] in a.queue;
      assert a.cmds[a.accepted[n + i]].serial < a.cmds[a.accepted[n + j]].serial;
    }
  }

  lemma HolderIsTarget(s: State, c: Id, k: Id)
    requires Good(s) && k in s.conns && c in s.conns[k].pending
    ensures c in s.core.cmds && Target(s.core, KindOf(s.core, c)) == Some(k)
  {
    assert ConnOk(s.core, k, s.conns[k]) && PendingOk(s.core, k, s.conns[k], c);
  }

  lemma PendingOnOne(s: State, c: Id)
    requires Good(s)
    ensures |PendingOn(s, c)| == if Pending(s, c) then 1 else 0
    ensures forall j, k :: j in PendingOn(s, c) && k in PendingOn(s, c) ==> j == k
  {
    hide Good;
    if Pending(s, c) {
      var k :| k in s.conns && c in s.conns[k].pending;
      HolderIsTarget(s, c, k);
      forall j | j in PendingOn(s, c) ensures j == k {
        HolderIsTarget(s, c, j);
      }
      assert PendingOn(s, c) == {k};
    } else {
      assert PendingOn(s, c) == {};
    }
  }

  /** Single ownership: between two steps a command object is held in exactly one place, counting
      every slot of the queue and every pending set, or it has been deleted and is held nowhere. */
  lemma SingleHolder(steps: seq<Step>, c: Id)
    requires Run(INITIAL, steps)
    ensures var s := After(INITIAL, steps);
            c in s.core.cmds ==> Holders(s, c) == if c in s.core.live then 1 else 0
  {
    var s := After(INITIAL, steps);
    ReachableIsGood(steps);
    if c in s.core.cmds {
      GoodCmd(s, c);
      QueueHasNoRepeats(s.core, ParkedSet(s.core, s.conns), AttachedSet(s.core, s.conns));
      OccursOnce(s.core.queue, c);
      PendingOnOne(s, c);
    }
  }

  /** At most one completion in every prefix of every run, and no deleted object is ever touched. */
  lemma CompletedAtMostOnce(steps: seq<Step>, c: Id)
    requires Run(INITIAL, steps)
    ensures var s := After(INITIAL, steps);
            && !s.core.fault
            && (c in s.core.cmds ==> |History(s.core, c)| <= 1)
            && (c in s.core.cmds && c in s.core.live ==> History(s.core, c) == [])
  {
    ReachableIsGood(steps);
    if c in After(INITIAL, steps).core.cmds {
      GoodCmd(After(INITIAL, steps), c);
    }
  }

  /** A pending call that can still fire points at a live command in the pending set of the
      connection the command works on, unless it was left behind by a cancelled owner-changed
      subscription. */
  lemma NoLateNotify(steps: seq<Step>, c: Id)
    requires Run(INITIAL, steps)
    ensures var s := After(INITIAL, steps);
            c in s.core.cmds && CanNotify(CallOf(s.core, c)) && !KindOf(s.core, c).SubscribeOwnerChanged? ==>
              IsLive(s.core, c) && IsParked(s.core, s.conns, c)
    ensures var s := After(INITIAL, steps);
            c in s.core.cmds && IsParked(s.core, s.conns, c) ==> CanNotify(CallOf(s.core, c)) && IsLive(s.core, c)
  {
    ReachableIsGood(steps);
    if c in After(INITIAL, steps).core.cmds {
      GoodCmd(After(INITIAL, steps), c);
    }
  }

  /** `execAndDestroy` is false after `execute` exactly when the command is in a pending set. */
  lemma KeptIffPending(steps: seq<Step>, c: Id)
    requires Run(INITIAL, steps)
    ensures var s := After(INITIAL, steps);
            c in s.core.cmds && c in s.core.live ==> (s.core.cmds[c].keep <==> Pending(s, c))
  {
    ReachableIsGood(steps);
    if c in After(INITIAL, steps).core.cmds {
      GoodCmd(After(INITIAL, steps), c);
    }
  }

  /** While the dispatcher runs, a byte waits in the pipe for each queued command: the loop's read
      never blocks, and a queued command always leaves the pipe readable. */
  lemma QueueAndPipeInLockstep(steps: seq<Step>)
    requires Run(INITIAL, steps)
    ensures var s := After(INITIAL, steps);
            s.core.running ==> s.core.pipe == |s.core.queue|
    ensures var s := After(INITIAL, steps);
            s.core.queue != [] ==> s.core.pipe > 0
    ensures var s := After(INITIAL, steps);
            s.core.accepted == s.core.taken + s.core.queue
  {
    ReachableIsGood(steps);
    LockstepWhileRunning(steps);
  }

  /** The same holds inside an operation, each time a callback submits: from whatever state `b` the
      execution of the front command has reached, by submitting, completing, deleting, cancelling or
      quitting, the queue and the pipe are in step again after each submission. */
  lemma ReentrantSubmitsInLockstep(s: State, b: Core, submissions: seq<Submission>, n: nat)
    requires s.core.queue != [] && s.core.pipe == |s.core.queue| && n <= |submissions|
    requires Steady(TakenOff(s).core.(quit := b.quit), b)
    ensures b.pipe == |b.queue|
    ensures var a := SubmitAll(b, submissions[..n]); a.pipe == |a.queue| && b.queue <= a.queue
  {
    hide CmdProgress;
    SubmitAllSteady(b, submissions[..n]);
  }

  lemma {:induction false} RunAppend(s: State, steps: seq<Step>, more: seq<Step>)
    requires Run(s, steps + more)
    ensures Run(s, steps) && Run(After(s, steps), more) && After(After(s, steps), more) == After(s, steps + more)
    decreases |steps|
  {
    hide Enabled, Allowed, Next;
    if steps == [] {
      assert steps + more == more;
    } else {
      assert (steps + more)[1..] == steps[1..] + more;
      RunAppend(Next(s, steps[0]), steps[1..], more);
    }
  }

  lemma LockstepWhileRunning(steps: seq<Step>)
    requires Run(INITIAL, steps) && Good(After(INITIAL, steps))
    ensures var s := After(INITIAL, steps).core; s.running ==> s.pipe == |s.queue|
  {
  }

  // ----- from one state of a run to a later one -----

  ghost predicate Advances(a: Core, b: Core) {
    && a.nextId <= b.nextId
    && (forall c: Id :: c < a.nextId ==> CmdProgress(a, b, c))
    && a.accepted <= b.accepted && a.taken <= b.taken
    && (b.running ==> a.running) && (a.quit ==> b.quit) && (a.fault ==> b.fault)
    && (EachCalledBack(a) ==> EachCalledBack(b))
  }

  lemma AdvancesTransitive(a: Core, b: Core, c: Core)
    requires Advances(a, b) && Advances(b, c)
    ensures Advances(a, c)
  {
    forall i: Id | i < a.nextId ensures CmdProgress(a, c, i) {
      assert CmdProgress(a, b, i) && CmdProgress(b, c, i);
    }
  }

  lemma SteadyAdvances(a: Core, b: Core)
    requires Steady(a, b)
    ensures Advances(a, b)
  {
  }

  lemma TakingAdvances(a: Core)
    requires a.queue != []
    ensures forall pipe :: Advances(a, a.(queue := a.queue[1..], pipe := pipe, taken := a.taken + [a.queue[0]]))
  {
    hide EachCalledBack;
    forall pipe ensures Advances(a, a.(queue := a.queue[1..], pipe := pipe, taken := a.taken + [a.queue[0]])) {
      QuietStep(a, a.(queue := a.queue[1..], pipe := pipe, taken := a.taken + [a.queue[0]]));
    }
  }

  lemma DrainAdvances(a: Core)
    requires !a.running
    ensures Advances(a, DrainCancelled(a))
    decreases |a.queue|
  {
    hide Advances, Steady, CancelCommand, Delete;
    if a.queue == [] {
      SteadyReflexive(a);
      SteadyAdvances(a, a);
    } else {
      var c := a.queue[0];
      var b := a.(queue := a.queue[1..], taken := a.taken + [c]);
      TakingAdvances(a);
      assert b == a.(queue := a.queue[1..], pipe := a.pipe, taken := a.taken + [c]);
      RefusalsKeepQueue(b, c);
      FinishSteady(b, c);
      var d := Delete(CancelCommand(b, c), c);
      SteadyAdvances(b, d);
      AdvancesTransitive(a, b, d);
      DrainAdvances(d);
      AdvancesTransitive(a, d, DrainCancelled(d));
    }
  }

  lemma SubmitAdvances(a: Core, c: Id, wrote: bool)
    requires IsLive(a, c) && a.cmds[c].serial == 0
    ensures Advances(a, Submit(a, c, wrote))
  {
    hide EachCalledBack;
    QuietStep(a, Submit(a, c, wrote));
  }

  lemma BuildAdvances(a: Core, request: Request)
    ensures Advances(a, Build(a, request))
  {
    hide EachCalledBack;
    QuietStep(a, Build(a, request));
  }

  lemma TakeNextAdvances(s: State, answer: Answer)
    requires s.core.queue != [] && s.core.pipe > 0 && CountsPositive(s)
    ensures Advances(s.core, ExecuteFront(s, answer).core)
  {
    hide Advances, Steady, Execute, Delete, Fault;
    var p := TakenOff(s);
    var c := s.core.queue[0];
    TakingAdvances(s.core);
    FaultSteady(p.core);
    if IsLive(p.core, c) {
      var t := Execute(p, c, answer);
      var q := if KindOf(p.core, c).Shutdown? then p.(core := p.core.(quit := true)) else p;
      ExecuteSteady(p, c, answer);
      FaultSteady(t.core);
      SteadyTransitive(q.core, t.core, Fault(t.core));
      DisposeSteady(q, t, c);
      SteadyAdvances(q.core, ExecuteFront(s, answer).core);
      QuittingAdvances(p.core);
      AdvancesTransitive(p.core, q.core, ExecuteFront(s, answer).core);
    } else {
      SteadyAdvances(p.core, Fault(p.core));
    }
    AdvancesTransitive(s.core, p.core, ExecuteFront(s, answer).core);
  }

  lemma NextAdvances(s: State, step: Step)
    requires Good(s) && Enabled(s, step)
    ensures Advances(s.core, Next(s, step).core)
  {
    InvCounts(s, {});
    if step.HandIn? {
      GoodCmd(s, step.c);
    }
    hide Advances, Steady, Good, Submit, Notify;
    match step
    case Construct(request) => BuildAdvances(s.core, request);
    case HandIn(c, wrote) => SubmitAdvances(s.core, c, wrote);
    case TakeNext(answer) => TakeNextAdvances(s, answer);
    case ReplyArrives(c) =>
      SetCallSteady(s.core, c, Completed);
      SteadyAdvances(s.core, SetCall(s.core, c, Completed));
    case CallNotify(c, reply, connected) =>
      NotifySteady(s, c, reply, connected);
      SteadyAdvances(s.core, Notify(s, c, reply, connected).core);
    case DataRemains(_) => QuittingAdvances(s.core);
    case Dispatched(_) => QuittingAdvances(s.core);
    case ThreadExit => StoppingAdvances(s.core);
    case DestroyDispatcher => DrainAdvances(s.core);
  }

  lemma QuittingAdvances(a: Core)
    ensures Advances(a, a) && Advances(a, a.(quit := true))
  {
    hide EachCalledBack;
    QuietStep(a, a.(quit := true));
  }

  lemma StoppingAdvances(a: Core)
    ensures Advances(a, a.(running := false))
  {
    hide EachCalledBack;
    QuietStep(a, a.(running := false));
  }

  lemma {:induction false} RunAdvances(s: State, steps: seq<Step>)
    requires Good(s) && Run(s, steps)
    ensures Advances(s.core, After(s, steps).core)
    decreases |steps|
  {
    hide Good, Enabled, Allowed, Next, Advances;
    if steps == [] {
      SteadyReflexive(s.core);
      SteadyAdvances(s.core, s.core);
    } else {
      NextKeeps(s, steps[0]);
      NextAdvances(s, steps[0]);
      var t := Next(s, steps[0]);
      RunAdvances(t, steps[1..]);
      AdvancesTransitive(s.core, t.core, After(t, steps[1..]).core);
    }
  }

  /** Later in the same run: acceptance and execution order only extend, an accepted command keeps
      its handle, a deleted command stays deleted and is never completed again. */
  lemma NothingIsUndone(steps: seq<Step>, more: seq<Step>, c: Id)
    requires Run(INITIAL, steps + more)
    ensures Run(INITIAL, steps)
    ensures var s, t := After(INITIAL, steps).core, After(INITIAL, steps + more).core;
            && s.accepted <= t.accepted && s.taken <= t.taken
            && (c in s.cmds ==>
                  && c in t.cmds && History(s, c) <= History(t, c)
                  && (s.cmds[c].serial > 0 ==> t.cmds[c].handle == s.cmds[c].handle && t.cmds[c].serial == s.cmds[c].serial)
                  && (c !in s.live ==> c !in t.live && History(t, c) == History(s, c)))
  {
    RunAppend(INITIAL, steps, more);
    ReachableIsGood(steps);
    var s := After(INITIAL, steps);
    hide Run, After;
    RunAdvances(s, more);
    if c in s.core.cmds {
      assert CmdProgress(s.core, After(s, more).core, c);
    }
  }

  /** In every reachable state each command completed so far has had its callback run: whatever the
      callback submits has been built, in order, by commands of its own that no other callback shares. */
  lemma EveryCompletionCallsBack(steps: seq<Step>)
    requires Run(INITIAL, steps)
    ensures EachCalledBack(After(INITIAL, steps).core)
  {
    ReachableIsGood(steps);
    InitialIsGood();
    assert StartsAt(INITIAL.core, map[]);
    hide Run, After, Good;
    RunAdvances(INITIAL, steps);
  }
}
