/** Runs of the library: every interleaving of client submissions with the dispatcher thread,
    from start to shutdown, and what holds of all of them. */
module Runs {
  import opened Commands
  import opened Connections
  import opened CoreInvariant
  import opened Invariant
  import opened Execution
  import opened Replies
  import opened Progress

  datatype Step =
    | Construct(request: Request)                 // a client builds a command
    | HandIn(c: Id, wrote: bool)                  // ... and submits it
    | TakeNext(answer: Answer)                    // the dispatcher executes the front command
    | ReplyArrives(c: Id)                         // the pending call of `c` completes
    | CallNotify(c: Id, reply: Reply, connected: bool)
    | DataRemains(k: Id)                          // messages have come in on connection `k`
    | Dispatched(i: nat)                          // ... and have all been dispatched
    | ThreadExit                                  // the loop has been told to quit and ends
    | DestroyDispatcher

  predicate Enabled(s: State, step: Step) {
    match step
    case Construct(_) => true
    case HandIn(c, _) => c in s.core.held
    case TakeNext(_) => s.core.running && s.core.queue != [] && s.core.pipe > 0
    case ReplyArrives(c) => s.core.running && CallOf(s.core, c).Waiting?
    case CallNotify(c, _, _) => s.core.running && CanNotify(CallOf(s.core, c))
    case DataRemains(k) => s.core.running && k in s.conns
    case Dispatched(i) => s.core.running && i < |s.dispatchList|
    case ThreadExit => s.core.running && s.core.quit
    case DestroyDispatcher => !s.core.running
  }

  function Next(s: State, step: Step): State
    requires Enabled(s, step)
  {
    match step
    case Construct(request) => s.(core := Build(s.core, request))
    case HandIn(c, wrote) => s.(core := Submit(s.core, c, wrote))
    case TakeNext(answer) => if CountsPositive(s) then ExecuteFront(s, answer) else Raise(s)
    case ReplyArrives(c) => s.(core := SetCall(s.core, c, Completed))
    case CallNotify(c, reply, connected) => Notify(s, c, reply, connected)
    case DataRemains(k) => s.(dispatchList := s.dispatchList + [k])
    case Dispatched(i) => s.(dispatchList := s.dispatchList[..i] + s.dispatchList[i + 1..])
    case ThreadExit => s.(core := s.core.(running := false))
    case DestroyDispatcher => s.(core := DrainCancelled(s.core))
  }

  /** The front command taken off the queue, in the hand of the dispatcher. */
  function TakenOff(s: State): State
    requires s.core.queue != [] && s.core.pipe > 0
  {
    s.(core := Popped(s.core))
  }

  /** What the library relies on: replies it can use, none of them for an owner-changed
      subscription cancelled meanwhile, one removal of an object at a time, and signals emitted
      through registrations that still exist. */
  ghost predicate Allowed(s: State, step: Step)
    requires Enabled(s, step)
  {
    match step
    case TakeNext(_) => s.core.queue[0] in s.core.cmds ==> ExecuteAllowed(TakenOff(s), s.core.queue[0])
    case CallNotify(c, reply, connected) => c in s.core.live && c in s.core.cmds && Usable(KindOf(s.core, c), reply, connected)
    case _ => true
  }

  ghost predicate Run(s: State, steps: seq<Step>)
    decreases |steps|
  {
    steps == [] ||
    (Enabled(s, steps[0]) && Allowed(s, steps[0]) && Run(Next(s, steps[0]), steps[1..]))
  }

  ghost function After(s: State, steps: seq<Step>): State
    requires Run(s, steps)
    decreases |steps|
  {
    if steps == [] then s else After(Next(s, steps[0]), steps[1..])
  }

  /** One byte in the pipe for each queued command, until the dispatcher is destroyed. */
  ghost predicate Lockstep(a: Core) {
    a.pipe == |a.queue| || (!a.running && a.queue == [])
  }

  ghost predicate Good(s: State) {
    Inv(s, {}) && Lockstep(s.core)
  }

  // ----- every step keeps the invariant -----

  lemma PoppedReady(s: State)
    requires Inv(s, {}) && s.core.queue != [] && s.core.pipe > 0
    ensures s.core.queue[0] in s.core.cmds && Ready(TakenOff(s), s.core.queue[0], {s.core.queue[0]})
    ensures CountsPositive(TakenOff(s)) && IsLive(TakenOff(s).core, s.core.queue[0])
  {
    var p, q := ParkedSet(s.core, s.conns), AttachedSet(s.core, s.conns);
    hide CoreInv, LinksOk;
    PoppedKeeps(s.core, Popped(s.core), p, q, {});
    var c := s.core.queue[0];
    assert {} + {c} == {c};
    GrowsKeepsLinks(s.core, Popped(s.core), s.conns);
  }

  /** `execAndDestroy` after `execute` decides rightly: the command is deleted unless it is parked. */
  lemma TakeNextKeeps(s: State, answer: Answer)
    requires Inv(s, {}) && s.core.queue != [] && s.core.pipe > 0 && s.core.queue[0] in s.core.cmds
    requires ExecuteAllowed(TakenOff(s), s.core.queue[0])
    ensures CountsPositive(s) && Inv(ExecuteFront(s, answer), {})
  {
    hide Inv, Execute, ExecuteAllowed;
    InvCounts(s, {});
    PoppedReady(s);
    var c := s.core.queue[0];
    ExecuteSettles(TakenOff(s), c, answer, {c});
    var t := Execute(TakenOff(s), c, answer);
    assert {c} - {c} == {};
    if !t.core.cmds[c].keep {
      DisposeKeeps(t, c, {c});
    }
  }

  lemma TakeNextLockstep(s: State, answer: Answer)
    requires s.core.queue != [] && s.core.pipe > 0 && CountsPositive(s)
    requires s.core.pipe == |s.core.queue|
    ensures ExecuteFront(s, answer).core.pipe == |ExecuteFront(s, answer).core.queue|
  {
    hide Execute, CmdProgress;
    var c := s.core.queue[0];
    if IsLive(TakenOff(s).core, c) {
      ExecuteSteady(TakenOff(s), c, answer);
    }
  }

  lemma SubmitLockstep(a: Core, c: Id, wrote: bool)
    requires Lockstep(a)
    ensures Lockstep(Submit(a, c, wrote))
  {
    if IsLive(a, c) && a.running && wrote {
      assert |Accept(a, c).queue| == |a.queue| + 1;
    } else {
      assert Submit(a, c, wrote).queue == a.queue;
    }
  }

  lemma FlagsKeepCore(a: Core, b: Core, parked: set<Id>, attached: set<Id>, hand: set<Id>)
    requires CoreInv(a, parked, attached, hand) && b == a.(running := b.running)
    ensures CoreInv(b, parked, attached, hand)
  {
    forall c | c in b.cmds ensures CmdOk(b, parked, attached, hand, c) {
      assert CmdOk(a, parked, attached, hand, c);
    }
  }

  lemma ArrivalKeepsCmd(a: Core, c: Id, parked: set<Id>, attached: set<Id>, x: Id)
    requires x in a.cmds && CmdOk(a, parked, attached, {}, x) && CallOf(a, c).Waiting?
    ensures CmdOk(SetCall(a, c, Completed), parked, attached, {}, x)
  {
  }

  lemma ArrivalKeeps(a: Core, c: Id, parked: set<Id>, attached: set<Id>)
    requires CoreInv(a, parked, attached, {}) && CallOf(a, c).Waiting?
    ensures CoreInv(SetCall(a, c, Completed), parked, attached, {})
  {
    hide CmdOk;
    forall x | x in a.cmds ensures CmdOk(SetCall(a, c, Completed), parked, attached, {}, x) {
      ArrivalKeepsCmd(a, c, parked, attached, x);
    }
  }

  /** `~Dispatcher` completes every queued command and leaves the rest as it is. */
  lemma {:induction false} DrainKeeps(a: Core, parked: set<Id>, attached: set<Id>)
    requires CoreInv(a, parked, attached, {}) && !a.running
    ensures CoreInv(DrainCancelled(a), parked, attached, {})
    ensures DrainCancelled(a).queue == [] && !DrainCancelled(a).running
    ensures KindsGrow(a, DrainCancelled(a))
    decreases |a.queue|
  {
    if a.queue != [] {
      hide CoreInv, CancelCommand, KindsGrow;
      var c := a.queue[0];
      var b := a.(queue := a.queue[1..], taken := a.taken + [c]);
      PoppedKeeps(a, b, parked, attached, {});
      assert {} + {c} == {c} && {c} - {c} == {};
      RefusalsKeepQueue(b, c);
      var d := Delete(CancelCommand(b, c), c);
      DrainOneKeeps(b, c, parked, attached);
      DrainKeeps(d, parked, attached);
      KindsGrowTransitive(b, d, DrainCancelled(d));
      KindsOfPopped(a, b, DrainCancelled(a));
    }
  }

  lemma KindsGrowTransitive(a: Core, b: Core, c: Core)
    requires KindsGrow(a, b) && KindsGrow(b, c)
    ensures KindsGrow(a, c)
  {
  }

  lemma KindsOfPopped(a: Core, b: Core, c: Core)
    requires KindsGrow(b, c) && b.cmds == a.cmds && b.nextId == a.nextId
    ensures KindsGrow(a, c)
  {
  }

  lemma DrainOneKeeps(b: Core, c: Id, parked: set<Id>, attached: set<Id>)
    requires CoreInv(b, parked, attached, {c}) && c in b.cmds
    requires History(b, c) == [] && CallOf(b, c).NoCall?
    ensures CoreInv(Delete(CancelCommand(b, c), c), parked, attached, {})
    ensures KindsGrow(b, Delete(CancelCommand(b, c), c))
  {
    hide CoreInv, CancelCommand;
    HandIsLive(b, c, parked, attached, {c});
    CancelKeeps(b, c, parked, attached, {c});
    var d := CancelCommand(b, c);
    assert CallOf(d, c) == CallOf(CallCleared(b, c), c);
    assert KindOf(d, c) == KindOf(b, c);
    DeleteKeeps(d, c, parked, attached, {c});
    assert {c} - {c} == {};
  }

  lemma SubmissionKeeps(s: State, c: Id, wrote: bool)
    requires Good(s) && c in s.core.held
    ensures Good(s.(core := Submit(s.core, c, wrote)))
  {
    var p, q := ParkedSet(s.core, s.conns), AttachedSet(s.core, s.conns);
    SubmitKeeps(s.core, c, wrote, p, q, {});
    SubmitLockstep(s.core, c, wrote);
    SubmitKindsGrow(s.core, c, wrote);
    hide CoreInv, Submit;
    CoreStepKeeps(s, Submit(s.core, c, wrote), {}, {});
  }

  lemma SubmitKindsGrow(a: Core, c: Id, wrote: bool)
    ensures KindsGrow(a, Submit(a, c, wrote))
  {
  }

  /** A call that can still notify, and whose command still exists, belongs to a parked command. */
  lemma NotifyFindsParked(s: State, c: Id)
    requires Inv(s, {}) && c in s.core.cmds && CanNotify(CallOf(s.core, c)) && c in s.core.live
    ensures Target(s.core, KindOf(s.core, c)).Some?
    ensures var k := Target(s.core, KindOf(s.core, c)).value; k in s.conns && c in s.conns[k].pending
  {
    assert CmdOk(s.core, ParkedSet(s.core, s.conns), AttachedSet(s.core, s.conns), {}, c);
  }

  lemma BuildKindsGrow(a: Core, request: Request, parked: set<Id>, attached: set<Id>)
    requires CoreInv(a, parked, attached, {})
    ensures KindsGrow(a, Build(a, request))
  {
  }

  lemma QuietStepKeeps(s: State, step: Step)
    requires Inv(s, {}) && Enabled(s, step)
    requires step.Construct? || step.ReplyArrives? || step.ThreadExit? || step.DestroyDispatcher?
    ensures Inv(Next(s, step), {})
  {
    var p, q := ParkedSet(s.core, s.conns), AttachedSet(s.core, s.conns);
    hide CoreInv, LinksOk, RefsOk;
    match step
    case Construct(request) =>
      BuildKeeps(s.core, request, p, q, {});
      BuildKindsGrow(s.core, request, p, q);
      CoreStepKeeps(s, Build(s.core, request), {}, {});
    case ReplyArrives(c) =>
      ArrivalKeeps(s.core, c, p, q);
      CoreStepKeeps(s, SetCall(s.core, c, Completed), {}, {});
    case ThreadExit =>
      FlagsKeepCore(s.core, s.core.(running := false), p, q, {});
      CoreStepKeeps(s, s.core.(running := false), {}, {});
    case DestroyDispatcher =>
      DrainKeeps(s.core, p, q);
      CoreStepKeeps(s, DrainCancelled(s.core), {}, {});
  }

  lemma ListStepKeeps(s: State, step: Step)
    requires Inv(s, {}) && Enabled(s, step) && (step.DataRemains? || step.Dispatched?)
    ensures Inv(Next(s, step), {})
  {
    hide CoreInv, LinksOk, RefsOk, ParkedSet, AttachedSet;
    var t := Next(s, step);
    forall k | k in t.dispatchList ensures k in t.conns {
      assert (step.DataRemains? && k == step.k) || k in s.dispatchList;
    }
  }

  lemma NextKeepsInv(s: State, step: Step)
    requires Good(s) && Enabled(s, step) && Allowed(s, step)
    ensures Inv(Next(s, step), {})
  {
    hide Inv, Submit, Notify, ExecuteAllowed;
    InvCounts(s, {});
    match step
    case HandIn(c, wrote) => SubmissionKeeps(s, c, wrote);
    case TakeNext(answer) =>
      PoppedReady(s);
      TakeNextKeeps(s, answer);
    case CallNotify(c, reply, connected) =>
      NotifyFindsParked(s, c);
      UsableReplyKeeps(s, c, Target(s.core, KindOf(s.core, c)).value, reply, connected);
    case DataRemains(_) => ListStepKeeps(s, step);
    case Dispatched(_) => ListStepKeeps(s, step);
    case _ => QuietStepKeeps(s, step);
  }

  lemma DrainEmpties(a: Core)
    requires !a.running
    ensures DrainCancelled(a).queue == [] && !DrainCancelled(a).running
    decreases |a.queue|
  {
    if a.queue != [] {
      hide CancelCommand, Delete;
      var b := a.(queue := a.queue[1..], taken := a.taken + [a.queue[0]]);
      RefusalsKeepQueue(b, a.queue[0]);
      DrainEmpties(Delete(CancelCommand(b, a.queue[0]), a.queue[0]));
    }
  }

  lemma NextKeepsLockstep(s: State, step: Step)
    requires Good(s) && Enabled(s, step) && Allowed(s, step)
    ensures Lockstep(Next(s, step).core)
  {
    InvCounts(s, {});
    hide Inv, Notify, Execute, Submit, CancelCommand, Delete;
    match step
    case HandIn(c, wrote) => SubmitLockstep(s.core, c, wrote);
    case TakeNext(answer) => TakeNextLockstep(s, answer);
    case CallNotify(c, reply, connected) => NotifySteady(s, c, reply, connected);
    case DestroyDispatcher => DrainEmpties(s.core);
    case _ =>
  }

  /** Every step of every run keeps the invariant. */
  lemma NextKeeps(s: State, step: Step)
    requires Good(s) && Enabled(s, step) && Allowed(s, step)
    ensures Good(Next(s, step))
  {
    NextKeepsInv(s, step);
    NextKeepsLockstep(s, step);
  }

  lemma InitialIsGood()
    ensures Good(INITIAL)
  {
  }

  lemma {:induction false} RunKeeps(s: State, steps: seq<Step>)
    requires Good(s) && Run(s, steps)
    ensures Good(After(s, steps))
    decreases |steps|
  {
    hide Good, Enabled, Allowed, Next;
    if steps != [] {
      NextKeeps(s, steps[0]);
      RunKeeps(Next(s, steps[0]), steps[1..]);
    }
  }

  // ----- putting runs together -----

  lemma OneStepFirst(s: State, step: Step, rest: seq<Step>)
    requires Enabled(s, step) && Allowed(s, step) && Run(Next(s, step), rest)
    ensures Run(s, [step] + rest) && After(s, [step] + rest) == After(Next(s, step), rest)
  {
    hide Next, Enabled, Allowed;
    assert ([step] + rest)[1..] == rest;
  }

  /** The state after a request has been built and handed in. */
  function Submitted(s: State, request: Request): State {
    s.(core := Submit(Build(s.core, request), s.core.nextId, true))
  }

  lemma SubmissionFirst(s: State, request: Request, rest: seq<Step>)
    requires Run(Submitted(s, request), rest)
    ensures var steps := [Construct(request)] + ([HandIn(s.core.nextId, true)] + rest);
            Run(s, steps) && After(s, steps) == After(Submitted(s, request), rest)
  {
    hide Run, After, Submit;
    var built := s.(core := Build(s.core, request));
    OneStepFirst(built, HandIn(s.core.nextId, true), rest);
    OneStepFirst(s, Construct(request), [HandIn(s.core.nextId, true)] + rest);
  }

  lemma SubmittedIsGood(s: State, request: Request)
    requires Good(s)
    ensures Good(Submitted(s, request))
  {
    hide Good, Submit;
    NextKeeps(s, Construct(request));
    NextKeeps(s.(core := Build(s.core, request)), HandIn(s.core.nextId, true));
  }
}
