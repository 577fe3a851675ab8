/** Nothing accepted is lost at shutdown, and exactly when that would fail. */
module Shutdowns {
  import opened Handles
  import opened Commands
  import opened Wrappers
  import opened Connections
  import opened CoreInvariant
  import opened Invariant
  import opened Execution
  import opened Progress
  import opened Callbacks
  import opened Replies
  import opened Runs
  import opened Guarantees

  // ----- what each operation does to the cache -----

  lemma ParkKeepsCache(s: State, c: Id, k: Id, answer: Answer)
    requires k in s.conns && c in s.core.cmds
    ensures Park(s, c, k, answer).conns.Keys == s.conns.Keys
  {
  }

  lemma ReleaseShrinksCache(s: State, k: Id)
    requires CountsPositive(s)
    ensures Release(s, k).conns.Keys <= s.conns.Keys
  {
  }

  lemma CancelKeepsCache(s: State, h: Uint32)
    ensures CancelByHandle(s, h).0.conns.Keys == s.conns.Keys
  {
    hide CancelCommand, Delete;
    if ConnsMatching(s, h) != {} {
      assert Least(ConnsMatching(s, h)) in s.conns;
    }
  }

  /** Only opening a connection makes the cache larger. */
  lemma ExecuteShrinksCache(s: State, c: Id, answer: Answer)
    requires c in s.core.cmds && CountsPositive(s) && !KindOf(s.core, c).OpenConnection?
    ensures Execute(s, c, answer).conns.Keys <= s.conns.Keys
    ensures KindOf(s.core, c).Shutdown? ==> Execute(s, c, answer).conns == map[]
  {
    hide Park, Create, Release, CancelByHandle, ForceReleaseAll, Complete;
    match KindOf(s.core, c)
    case CloseConnection(k) => ReleaseShrinksCache(s, k);
    case Cancel(h) => CancelKeepsCache(s, h);
    case Subscribe(k) => if k in s.conns { ParkKeepsCache(s, c, k, answer); }
    case SubscribeOwnerChanged(k) => if k in s.conns { ParkKeepsCache(s, c, k, answer); }
    case RegisterService(k) => if k in s.conns { ParkKeepsCache(s, c, k, answer); }
    case Invoke(k, _) => if k in s.conns { ParkKeepsCache(s, c, k, answer); }
    case NameHasOwner(k) => if k in s.conns { ParkKeepsCache(s, c, k, answer); }
    case Unsubscribe(i) => RemovalKeepsCache(s, c, i, SubscriptionExists(s, i), answer);
    case UnregisterService(i) => RemovalKeepsCache(s, c, i, ServiceExists(s, i), answer);
    case _ =>
  }

  lemma RemovalKeepsCache(s: State, c: Id, i: Id, found: bool, answer: Answer)
    requires c in s.core.cmds
    ensures ExecuteRemoval(s, c, i, found, answer).conns.Keys == s.conns.Keys
  {
    hide Park, Complete;
    if i in s.core.cmds && CreatesObject(KindOf(s.core, i)) && KindOf(s.core, i).conn in s.conns {
      ParkKeepsCache(s, c, KindOf(s.core, i).conn, answer);
    }
  }

  lemma ReplyActionKeepsCache(s: State, c: Id, k: Id, reply: Reply)
    requires c in s.core.cmds
    ensures ReplyAction(s, c, k, reply).conns.Keys == s.conns.Keys
  {
    hide Complete;
  }

  lemma NotifyKeepsCache(s: State, c: Id, reply: Reply, connected: bool)
    ensures Notify(s, c, reply, connected).conns.Keys == s.conns.Keys
  {
    hide ReplyAction, Complete, Delete;
    if IsLive(s.core, c) && Target(s.core, KindOf(s.core, c)).Some? {
      ReplyActionKeepsCache(s.(core := SetCall(s.core, c, Stolen)), c, Target(s.core, KindOf(s.core, c)).value, reply);
    }
  }

  // ----- the shutdown flag -----

  /** The loop quits only after a shutdown has emptied the cache, and the thread exits only after
      the loop has quit. */
  ghost predicate ShutDown(s: State) {
    && (s.core.quit ==> s.conns == map[])
    && (!s.core.running ==> s.core.quit)
  }

  /** No connection is opened once the loop has been told to quit. */
  ghost predicate NoOpenAfterQuit(s: State, steps: seq<Step>)
    requires Run(s, steps)
    decreases |steps|
  {
    steps == [] || (!OpensAfterQuit(s, steps[0]) && NoOpenAfterQuit(Next(s, steps[0]), steps[1..]))
  }

  predicate OpensAfterQuit(s: State, step: Step)
    requires Enabled(s, step)
  {
    step.TakeNext? && s.core.quit && s.core.queue[0] in s.core.cmds && KindOf(s.core, s.core.queue[0]).OpenConnection?
  }

  lemma {:induction false} DrainKeepsQuit(a: Core)
    requires !a.running
    ensures DrainCancelled(a).quit == a.quit
    decreases |a.queue|
  {
    hide CancelCommand, Delete;
    if a.queue != [] {
      var c := a.queue[0];
      var b := a.(queue := a.queue[1..], taken := a.taken + [c]);
      RefusalsKeepQueue(b, c);
      FinishSteady(b, c);
      hide CmdProgress;
      DrainKeepsQuit(Delete(CancelCommand(b, c), c));
    }
  }

  /** `execute` tells the loop to quit only together with emptying the cache. */
  lemma ExecuteQuits(s: State, c: Id, answer: Answer)
    requires c in s.core.cmds && CountsPositive(s) && ShutDown(s)
    requires s.core.quit ==> !KindOf(s.core, c).OpenConnection?
    ensures ShutDown(Execute(s, c, answer)) && Execute(s, c, answer).core.running == s.core.running
  {
    hide Execute, CmdProgress;
    ExecuteSteady(s, c, answer);
    if !KindOf(s.core, c).OpenConnection? {
      ExecuteShrinksCache(s, c, answer);
    }
  }

  lemma TakeNextKeepsShutDown(s: State, answer: Answer)
    requires s.core.running && s.core.queue != [] && s.core.pipe > 0 && CountsPositive(s)
    requires ShutDown(s) && !OpensAfterQuit(s, TakeNext(answer))
    ensures ShutDown(ExecuteFront(s, answer))
  {
    hide Execute, CmdProgress;
    if IsLive(TakenOff(s).core, s.core.queue[0]) {
      ExecuteQuits(TakenOff(s), s.core.queue[0], answer);
    }
  }

  lemma NextKeepsShutDown(s: State, step: Step)
    requires Good(s) && Enabled(s, step) && ShutDown(s) && !OpensAfterQuit(s, step)
    ensures ShutDown(Next(s, step))
  {
    InvCounts(s, {});
    hide Good, Notify, ExecuteFront, CancelCommand, Delete;
    match step
    case TakeNext(answer) => TakeNextKeepsShutDown(s, answer);
    case CallNotify(c, reply, connected) =>
      NotifyKeepsCache(s, c, reply, connected);
      hide CmdProgress;
      NotifySteady(s, c, reply, connected);
    case DestroyDispatcher =>
      DrainKeepsQuit(s.core);
    case _ =>
  }

  lemma {:induction false} RunKeepsShutDown(s: State, steps: seq<Step>)
    requires Good(s) && Run(s, steps) && ShutDown(s) && NoOpenAfterQuit(s, steps)
    ensures ShutDown(After(s, steps))
    decreases |steps|
  {
    hide Good, Enabled, Allowed, Next, ShutDown, OpensAfterQuit;
    if steps != [] {
      NextKeeps(s, steps[0]);
      NextKeepsShutDown(s, steps[0]);
      RunKeepsShutDown(Next(s, steps[0]), steps[1..]);
    }
  }

  // ----- nothing is lost -----

  /** Accepted, and not one of the commands that may end without a completion. */
  predicate OwedCompletion(a: Core, c: Id) {
    c in a.accepted && c in a.cmds && !MayStaySilent(KindOf(a, c))
  }

  /** The dispatcher has been destroyed: the thread is gone and the queue has been emptied. */
  predicate Ended(a: Core) {
    !a.running && a.queue == []
  }

  ghost predicate NobodyIsLost(a: Core) {
    forall c :: OwedCompletion(a, c) ==> |History(a, c)| == 1
  }

  lemma PendingIsOwed(s: State, c: Id)
    requires Good(s) && Pending(s, c)
    ensures OwedCompletion(s.core, c) && History(s.core, c) == []
  {
    ParkedMeansPending(s.core, s.conns, c);
    hide Inv;
    GoodCmd(s, c);
    ParkedIsOwed(s.core, ParkedSet(s.core, s.conns), AttachedSet(s.core, s.conns), c);
  }

  lemma ParkedIsOwed(a: Core, parked: set<Id>, attached: set<Id>, c: Id)
    requires c in parked && c in a.cmds && CmdOk(a, parked, attached, {}, c)
    ensures OwedCompletion(a, c) && History(a, c) == []
  {
  }

  lemma OwedIsPendingOrDone(s: State, c: Id)
    requires Good(s) && OwedCompletion(s.core, c) && c !in s.core.queue
    ensures Pending(s, c) || |History(s.core, c)| == 1
  {
    GoodCmd(s, c);
  }

  /** Once the dispatcher is gone, every owed completion has been delivered exactly once if and only
      if no cached connection still has a pending command. */
  lemma LostIffPending(s: State)
    requires Good(s) && Ended(s.core)
    ensures NobodyIsLost(s.core) <==> (forall k :: k in s.conns ==> s.conns[k].pending == {})
  {
    hide Good, OwedCompletion;
    if NobodyIsLost(s.core) {
      forall k, c | k in s.conns && c in s.conns[k].pending ensures false {
        PendingIsOwed(s, c);
      }
    }
    if forall k :: k in s.conns ==> s.conns[k].pending == {} {
      forall c | OwedCompletion(s.core, c) ensures |History(s.core, c)| == 1 {
        OwedIsPendingOrDone(s, c);
      }
    }
  }

  /** In every run that ends with the dispatcher destroyed and opens no connection after the
      shutdown, each accepted command has its completion delivered exactly once: whether it was
      executed, answered, cancelled, pending on a connection, queued behind the shutdown, or
      accepted after the loop quit. */
  lemma ShutdownLosesNobody(steps: seq<Step>)
    requires Run(INITIAL, steps) && NoOpenAfterQuit(INITIAL, steps)
    requires Ended(After(INITIAL, steps).core)
    ensures NobodyIsLost(After(INITIAL, steps).core)
    ensures forall c :: c in After(INITIAL, steps).core.accepted ==> c !in After(INITIAL, steps).core.live
  {
    InitialIsGood();
    ReachableIsGood(steps);
    RunKeepsShutDown(INITIAL, steps);
    var s := After(INITIAL, steps);
    assert ShutDown(s) && s.conns == map[];
    LostIffPending(s);
    forall c | c in s.core.accepted ensures c !in s.core.live {
      assert CmdOk(s.core, ParkedSet(s.core, s.conns), AttachedSet(s.core, s.conns), {}, c);
    }
  }

  // ----- only a shutdown command ends the thread -----

  ghost predicate ShutdownTaken(a: Core) {
    exists c :: c in a.taken && c in a.cmds && KindOf(a, c).Shutdown?
  }

  lemma ExecuteFrontQuits(s: State, answer: Answer)
    requires s.core.queue != [] && s.core.pipe > 0 && CountsPositive(s) && s.core.queue[0] in s.core.cmds
    ensures var t := ExecuteFront(s, answer).core;
            t.quit == (s.core.quit || (s.core.queue[0] in s.core.live && KindOf(s.core, s.core.queue[0]).Shutdown?))
    ensures ExecuteFront(s, answer).core.taken == s.core.taken + [s.core.queue[0]]
  {
    hide Execute, CountsPositive;
    FrontFlags(s, answer);
    var p, c := TakenOff(s), s.core.queue[0];
    if IsLive(p.core, c) {
      hide ExecuteFront;
      ExecuteQuitsIf(p, c, answer);
    }
  }

  /** Deleting the command, or a fault, changes neither the flag nor what has been taken or completed. */
  lemma FrontFlags(s: State, answer: Answer)
    requires s.core.queue != [] && s.core.pipe > 0 && CountsPositive(s)
    ensures CountsPositive(TakenOff(s))
    ensures var p, c := TakenOff(s), s.core.queue[0];
            var u := if IsLive(p.core, c) then Execute(p, c, answer) else p;
            && ExecuteFront(s, answer).core.quit == u.core.quit && ExecuteFront(s, answer).core.taken == u.core.taken
            && ExecuteFront(s, answer).core.history == u.core.history
  {
    hide Execute;
  }

  lemma ExecuteQuitsIf(s: State, c: Id, answer: Answer)
    requires c in s.core.cmds && CountsPositive(s)
    ensures Execute(s, c, answer).core.quit == (s.core.quit || KindOf(s.core, c).Shutdown?)
    ensures Execute(s, c, answer).core.taken == s.core.taken
  {
    hide Execute, CmdProgress;
    ExecuteSteady(s, c, answer);
  }

  lemma NextQuits(s: State, step: Step)
    requires Good(s) && Enabled(s, step)
    requires !step.TakeNext?
    ensures Next(s, step).core.quit == s.core.quit
  {
    hide Good, Notify, CancelCommand, CmdProgress;
    match step
    case CallNotify(c, reply, connected) => NotifySteady(s, c, reply, connected);
    case DestroyDispatcher => DrainKeepsQuit(s.core);
    case _ =>
  }

  lemma GoodIds(s: State)
    requires Good(s)
    ensures (forall c :: c in s.core.cmds ==> c < s.core.nextId) && CountsPositive(s)
    ensures s.core.queue != [] ==> s.core.queue[0] in s.core.cmds
  {
    assert s.core.queue != [] ==> s.core.queue[0] in s.core.queue;
    InvCounts(s, {});
  }

  /** The quit flag is up exactly when a shutdown command has been taken off the queue. */
  ghost predicate QuitHasCause(a: Core) {
    && (a.quit <==> ShutdownTaken(a))
    && (a.running || a.quit)
  }

  lemma JustTaken(a: Core, b: Core, c: Id)
    requires Advances(a, b) && c in a.cmds && c < a.nextId && b.taken == a.taken + [c]
    requires forall x :: x in a.taken ==> x in a.cmds && x < a.nextId
    ensures ShutdownTaken(b) <==> ShutdownTaken(a) || KindOf(a, c).Shutdown?
  {
    assert CmdProgress(a, b, c);
    if KindOf(a, c).Shutdown? {
      assert c in b.taken;
    }
    if ShutdownTaken(a) {
      TakenStaysTaken(a, b);
    }
    if ShutdownTaken(b) {
      var x :| x in b.taken && x in b.cmds && KindOf(b, x).Shutdown?;
      assert x == c || x in a.taken;
      assert x in a.cmds && CmdProgress(a, b, x);
    }
  }

  lemma TakenStaysTaken(a: Core, b: Core)
    requires Advances(a, b) && ShutdownTaken(a) && forall x :: x in a.taken ==> x in a.cmds && x < a.nextId
    ensures ShutdownTaken(b)
  {
    var x :| x in a.taken && x in a.cmds && KindOf(a, x).Shutdown?;
    assert CmdProgress(a, b, x);
    assert x in b.taken;
  }

  lemma NothingTaken(a: Core, b: Core)
    requires Advances(a, b) && b.taken == a.taken && forall x :: x in a.taken ==> x in a.cmds && x < a.nextId
    ensures ShutdownTaken(b) ==> ShutdownTaken(a)
  {
    if ShutdownTaken(b) {
      var x :| x in b.taken && x in b.cmds && KindOf(b, x).Shutdown?;
      assert CmdProgress(a, b, x);
    }
  }

  lemma TakenIds(s: State)
    requires Good(s)
    ensures forall x :: x in s.core.taken ==> x in s.core.cmds && x < s.core.nextId
    ensures s.core.queue != [] ==> s.core.queue[0] in s.core.cmds && s.core.queue[0] in s.core.live
  {
    forall x | x in s.core.taken ensures x in s.core.accepted {
    }
    if s.core.queue != [] {
      assert s.core.queue[0] in s.core.queue;
      GoodCmd(s, s.core.queue[0]);
    }
  }

  lemma SubmitTakesNothing(a: Core, c: Id, wrote: bool)
    ensures Submit(a, c, wrote).taken == a.taken
  {
  }

  lemma NextTakesNothing(s: State, step: Step)
    requires Good(s) && Enabled(s, step) && !step.TakeNext? && !step.DestroyDispatcher?
    ensures Next(s, step).core.taken == s.core.taken
  {
    hide Good, Notify, Submit, SetCall, CmdProgress;
    match step
    case CallNotify(c, reply, connected) => NotifySteady(s, c, reply, connected);
    case HandIn(c, wrote) => SubmitTakesNothing(s.core, c, wrote);
    case ReplyArrives(c) => SetCallSteady(s.core, c, Completed);
    case _ =>
  }

  lemma NextKeepsCause(s: State, step: Step)
    requires Good(s) && Enabled(s, step) && QuitHasCause(s.core)
    ensures QuitHasCause(Next(s, step).core)
  {
    GoodIds(s);
    TakenIds(s);
    NextAdvances(s, step);
    NextKeepsRunningOrQuit(s, step);
    hide Good, Advances, ShutdownTaken, ExecuteFront, CmdProgress;
    var t := Next(s, step);
    if s.core.quit {
      TakenStaysTaken(s.core, t.core);
      QuitStays(s.core, t.core);
    } else if step.TakeNext? {
      ExecuteFrontQuits(s, step.answer);
      JustTaken(s.core, t.core, s.core.queue[0]);
    } else {
      NextQuits(s, step);
      NextTakesNothing(s, step);
      NothingTaken(s.core, t.core);
    }
  }

  lemma QuitStays(a: Core, b: Core)
    requires Advances(a, b) && a.quit
    ensures b.quit
  {
  }

  lemma {:induction false} RunKeepsCause(s: State, steps: seq<Step>)
    requires Good(s) && Run(s, steps) && QuitHasCause(s.core)
    ensures QuitHasCause(After(s, steps).core)
    decreases |steps|
  {
    hide Good, Enabled, Allowed, Next, QuitHasCause;
    if steps != [] {
      NextKeeps(s, steps[0]);
      NextKeepsCause(s, steps[0]);
      RunKeepsCause(Next(s, steps[0]), steps[1..]);
    }
  }

  /** The loop has been told to quit if and only if a shutdown command has been executed, and the thread
      exits only then. */
  lemma QuitIffShutdownTaken(steps: seq<Step>)
    requires Run(INITIAL, steps)
    ensures var a := After(INITIAL, steps).core;
            && (a.quit <==> exists c :: c in a.taken && c in a.cmds && KindOf(a, c).Shutdown?)
            && (!a.running ==> a.quit)
  {
    InitialIsGood();
    RunKeepsCause(INITIAL, steps);
  }

  lemma NextKeepsRunningOrQuit(s: State, step: Step)
    requires Good(s) && Enabled(s, step) && (s.core.running || s.core.quit)
    ensures Next(s, step).core.running || Next(s, step).core.quit
  {
    hide Good, ExecuteFront, Notify, CancelCommand, Steady, CountsPositive;
    GoodIds(s);
    match step
    case TakeNext(answer) => TakeNextKeepsRunning(s, answer);
    case CallNotify(c, reply, connected) => NotifyKeepsRunning(s, c, reply, connected);
    case DestroyDispatcher => DrainKeepsQuit(s.core);
    case _ =>
  }

  lemma NotifyKeepsRunning(s: State, c: Id, reply: Reply, connected: bool)
    ensures Notify(s, c, reply, connected).core.running == s.core.running
  {
    hide Notify, CmdProgress;
    NotifySteady(s, c, reply, connected);
  }

  lemma TakeNextKeepsRunning(s: State, answer: Answer)
    requires s.core.queue != [] && s.core.pipe > 0 && CountsPositive(s)
    ensures ExecuteFront(s, answer).core.running == s.core.running
  {
    hide Execute, CmdProgress;
    if IsLive(TakenOff(s).core, s.core.queue[0]) {
      ExecuteSteady(TakenOff(s), s.core.queue[0], answer);
    }
  }

  // ----- what goes wrong otherwise -----

  const OPENED := Answer(true, true, true, true, true, true, Opened(7, true), Ok)

  function SyncRequest(kind: Kind): Request {
    Request(kind, true, [])
  }

  lemma NoOpenFirst(s: State, step: Step, rest: seq<Step>)
    requires Enabled(s, step) && Allowed(s, step) && Run(Next(s, step), rest)
    requires !OpensAfterQuit(s, step) && NoOpenAfterQuit(Next(s, step), rest)
    ensures Run(s, [step] + rest) && NoOpenAfterQuit(s, [step] + rest)
    ensures After(s, [step] + rest) == After(Next(s, step), rest)
  {
    hide Next, Enabled, Allowed, OpensAfterQuit;
    assert ([step] + rest)[1..] == rest;
  }

  ghost predicate OnlyInvocationQueued(s: State, c: Id, k: Id) {
    && s.core.running && s.core.quit && s.core.queue == [c] && s.core.pipe > 0
    && IsLive(s.core, c) && KindOf(s.core, c) == Invoke(k, false) && k in s.conns
  }

  lemma InvocationIsQueued(s: State, k: Id)
    requires Good(s) && s.core.running && s.core.quit && s.core.queue == [] && k in s.conns
    ensures OnlyInvocationQueued(
              s.(core := Submit(Build(s.core, SyncRequest(Invoke(k, false))), s.core.nextId, true)), s.core.nextId, k)
  {
  }

  lemma InvocationParks(s: State, c: Id, k: Id)
    requires OnlyInvocationQueued(s, c, k) && CountsPositive(s)
    ensures var t := ExecuteFront(s, OPENED);
            t.core.running && t.core.quit && t.core.queue == [] && k in t.conns && c in t.conns[k].pending
  {
  }

  /** The dispatcher executes the invocation, but nobody answers it in time. */
  const UNANSWERED := [TakeNext(OPENED)] + ([ThreadExit] + ([DestroyDispatcher] + []))

  /** An invocation that is executed after the shutdown, on a connection opened after it, is lost. */
  lemma QueuedInvocationIsLost(s: State, c: Id, k: Id)
    requires Good(s) && OnlyInvocationQueued(s, c, k)
    ensures Run(s, UNANSWERED) && NoOpenAfterQuit(s, UNANSWERED)
    ensures Ended(After(s, UNANSWERED).core) && !NobodyIsLost(After(s, UNANSWERED).core)
  {
    hide Good, Inv, ExecuteFront, NobodyIsLost, OwedCompletion, Run, After, NoOpenAfterQuit;
    GoodCounts(s);
    NextKeeps(s, TakeNext(OPENED));
    var parked := ExecuteFront(s, OPENED);
    InvocationParks(s, c, k);
    NextKeeps(parked, ThreadExit);
    NothingAfter(parked.(core := parked.core.(running := false)), k, c);
    NoOpenFirst(parked, ThreadExit, [DestroyDispatcher] + []);
    NoOpenFirst(s, TakeNext(OPENED), [ThreadExit] + ([DestroyDispatcher] + []));
  }

  lemma GoodCounts(s: State)
    requires Good(s)
    ensures CountsPositive(s)
  {
    InvCounts(s, {});
  }

  lemma NothingAfter(s: State, k: Id, c: Id)
    requires Good(s) && Ended(s.core) && k in s.conns && c in s.conns[k].pending
    ensures Run(s, [DestroyDispatcher] + []) && After(s, [DestroyDispatcher] + []) == s && !NobodyIsLost(s.core)
    ensures NoOpenAfterQuit(s, [DestroyDispatcher] + [])
  {
    hide Good, NobodyIsLost, OwedCompletion, ExecuteAllowed, Usable, CancelCommand, Delete, ExecuteFront, Notify;
    LostIffPending(s);
    assert Next(s, DestroyDispatcher) == s;
    NoOpenFirst(s, DestroyDispatcher, []);
  }

  /** A synchronous invocation on `k`, handed in and left unanswered. */
  function LateInvocation(c: Id, k: Id): seq<Step> {
    [Construct(SyncRequest(Invoke(k, false)))] + ([HandIn(c, true)] + UNANSWERED)
  }

  lemma CachedConnectionCanLose(s: State, k: Id)
    requires Good(s) && s.core.running && s.core.quit && s.core.queue == [] && k in s.conns
    ensures var steps := LateInvocation(s.core.nextId, k);
            && Run(s, steps) && NoOpenAfterQuit(s, steps)
            && Ended(After(s, steps).core) && !NobodyIsLost(After(s, steps).core)
  {
    hide Good, Inv, ExecuteFront, Submit, NobodyIsLost, OwedCompletion, Run, After, NoOpenAfterQuit;
    var c := s.core.nextId;
    var built := s.(core := Build(s.core, SyncRequest(Invoke(k, false))));
    var queued := s.(core := Submit(built.core, c, true));
    NextKeeps(s, Construct(SyncRequest(Invoke(k, false))));
    NextKeeps(built, HandIn(c, true));
    InvocationIsQueued(s, k);
    QueuedInvocationIsLost(queued, c, k);
    NoOpenFirst(built, HandIn(c, true), UNANSWERED);
    NoOpenFirst(s, Construct(SyncRequest(Invoke(k, false))), [HandIn(c, true)] + UNANSWERED);
  }

  /** Whether anybody can still be lost shows when the loop has quit and the queue is empty: however the
      run goes on, as long as it opens no connection, every owed completion has been delivered once at
      its end, if and only if no connection is cached at this moment. */
  lemma NobodyIsLostIffNothingCached(s: State)
    requires Good(s) && s.core.running && s.core.quit && s.core.queue == []
    ensures (forall steps :: Run(s, steps) && NoOpenAfterQuit(s, steps) && Ended(After(s, steps).core) ==>
               NobodyIsLost(After(s, steps).core))
            <==> s.conns == map[]
  {
    if s.conns == map[] {
      forall steps | Run(s, steps) && NoOpenAfterQuit(s, steps) && Ended(After(s, steps).core)
        ensures NobodyIsLost(After(s, steps).core)
      {
        RunKeepsShutDown(s, steps);
        RunKeeps(s, steps);
        LostIffPending(After(s, steps));
      }
    } else {
      var k :| k in s.conns;
      CachedConnectionCanLose(s, k);
    }
  }

  // ----- what the destructor tells -----

  /** The first queued command has had its cancellation, if it reports one, and is deleted. */
  lemma DrainOneTells(a: Core, parked: set<Id>, attached: set<Id>)
    requires CoreInv(a, parked, attached, {}) && !a.running && a.queue != []
    ensures var c := a.queue[0];
            var b := a.(queue := a.queue[1..], taken := a.taken + [c]);
            var d := Delete(CancelCommand(b, c), c);
            && CoreInv(d, parked, attached, {}) && !d.running && d.queue == b.queue && c in a.cmds && KindsGrow(a, d)
            && c < d.nextId && c in d.cmds && c !in d.live
            && History(d, c) == if CancelIsSilent(KindOf(a, c)) then [] else [Outcome(Cancelled, None)]
  {
    var c := a.queue[0];
    var b := a.(queue := a.queue[1..], taken := a.taken + [c]);
    hide CoreInv, CancelCommand, KindsGrow, Extends, CallCleared;
    PoppedKeeps(a, b, parked, attached, {});
    assert {} + {c} == {c};
    RefusalsKeepQueue(b, c);
    DrainOneKeeps(b, c, parked, attached);
    CancelKeeps(b, c, parked, attached, {c});
    var d := Delete(CancelCommand(b, c), c);
    KindsOfPopped(a, b, d);
    LiveIsKnown(b, c, parked, attached);
    CancelledIsDeleted(b, c);
  }

  lemma LiveIsKnown(b: Core, c: Id, parked: set<Id>, attached: set<Id>)
    requires IsLive(b, c) && CoreInv(b, parked, attached, {c})
    ensures c < b.nextId
  {
  }

  lemma CancelledIsDeleted(b: Core, c: Id)
    requires IsLive(b, c) && c < b.nextId
    ensures var d := Delete(CancelCommand(b, c), c);
            d.history == CancelCommand(b, c).history && c !in d.live && c in d.cmds && c < d.nextId
  {
    hide CancelCommand, EachCalledBack;
    var e := CancelCommand(b, c);
    CancelCommandSteady(b, c);
    assert CmdProgress(b, e, c);
    hide Steady, Accumulates;
  }

  /** When the dispatcher is destroyed, every command still queued is told that it was cancelled, unless
      it is of the two kinds that are not told, and is deleted. */
  lemma {:induction false} DrainTellsCancelled(a: Core, parked: set<Id>, attached: set<Id>, c: Id)
    requires CoreInv(a, parked, attached, {}) && !a.running && c in a.queue
    ensures c in a.cmds && c !in DrainCancelled(a).live
    ensures History(DrainCancelled(a), c) ==
            if KindOf(a, c).FreeRequestContext? || KindOf(a, c).Shutdown? then [] else [Outcome(Cancelled, None)]
    decreases |a.queue|
  {
    DrainOneTells(a, parked, attached);
    hide CoreInv, CancelCommand, Delete;
    var x := a.queue[0];
    var b := a.(queue := a.queue[1..], taken := a.taken + [x]);
    var d := Delete(CancelCommand(b, x), x);
    if c == x {
      DrainAdvances(d);
      assert CmdProgress(d, DrainCancelled(d), c);
    } else {
      assert c in d.queue;
      QueuedIsKnown(a, parked, attached, c);
      DrainTellsCancelled(d, parked, attached, c);
    }
  }

  lemma QueuedIsKnown(a: Core, parked: set<Id>, attached: set<Id>, c: Id)
    requires CoreInv(a, parked, attached, {}) && c in a.queue
    ensures c in a.cmds
  {
  }
}
