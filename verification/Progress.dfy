/** What no operation ever undoes, whatever state it starts in: records, completions and
    deletions only accumulate, and the queue and the pipe grow together. */
module Progress {
  import opened Handles
  import opened Commands
  import opened Wrappers
  import opened Connections
  import opened Callbacks

  ghost predicate CmdProgress(a: Core, b: Core, c: Id) {
    c in a.cmds ==>
      && c in b.cmds
      && b.cmds[c].request == a.cmds[c].request
      && (a.cmds[c].serial > 0 ==> b.cmds[c].serial == a.cmds[c].serial && b.cmds[c].handle == a.cmds[c].handle)
      && (c !in a.live ==> c !in b.live && History(b, c) == History(a, c))
      && History(a, c) <= History(b, c)
  }

  ghost predicate Accumulates(a: Core, b: Core) {
    && a.nextId <= b.nextId
    && (forall c: Id :: c < a.nextId ==> CmdProgress(a, b, c))
    && (forall c :: c in b.cmds && c !in a.cmds ==> c >= a.nextId)
    && b.taken == a.taken && a.queue <= b.queue && a.accepted <= b.accepted
    && b.pipe - |b.queue| == a.pipe - |a.queue|
    && b.running == a.running && b.quit == a.quit && (a.fault ==> b.fault)
  }

  /** Also, if every command completed so far has had its callback run, this stays so. */
  ghost predicate Steady(a: Core, b: Core) {
    Accumulates(a, b) && (EachCalledBack(a) ==> EachCalledBack(b))
  }

  lemma AccumulatesTransitive(a: Core, b: Core, c: Core)
    requires Accumulates(a, b) && Accumulates(b, c)
    ensures Accumulates(a, c)
  {
    forall i: Id | i < a.nextId ensures CmdProgress(a, c, i) {
      assert CmdProgress(a, b, i) && CmdProgress(b, c, i);
    }
    forall i | i in c.cmds && i !in a.cmds ensures i >= a.nextId {
      if i !in b.cmds {
        assert i >= b.nextId;
      }
    }
  }

  lemma SteadyTransitive(a: Core, b: Core, c: Core)
    requires Steady(a, b) && Steady(b, c)
    ensures Steady(a, c)
  {
    hide Accumulates, EachCalledBack;
    AccumulatesTransitive(a, b, c);
  }

  /** Nobody is completed. */
  lemma QuietSteady(a: Core, b: Core)
    requires Accumulates(a, b) && (RecordsKnown(a) ==> RecordsKnown(b)) && b.history == a.history
    ensures Steady(a, b)
  {
    forall c | RecordsKnown(a) && c in a.cmds ensures c in b.cmds && b.cmds[c].request == a.cmds[c].request {
      assert CmdProgress(a, b, c);
    }
    hide EachCalledBack;
    QuietStep(a, b);
  }

  /** A new command is built and submitted. */
  lemma NewIsSteady(a: Core, request: Request, wrote: bool)
    ensures Steady(a, Submit(Build(a, request), a.nextId, wrote))
  {
    QuietSteady(a, Submit(Build(a, request), a.nextId, wrote));
  }

  lemma {:induction false} SubmitAllSteady(a: Core, submissions: seq<Submission>)
    ensures Steady(a, SubmitAll(a, submissions))
    decreases |submissions|
  {
    if submissions != [] {
      hide Steady, Submit;
      var b := Submit(Build(a, submissions[0].request), a.nextId, submissions[0].wrote);
      NewIsSteady(a, submissions[0].request, submissions[0].wrote);
      SubmitAllSteady(b, submissions[1..]);
      SteadyTransitive(a, b, SubmitAll(b, submissions[1..]));
    } else {
      SteadyReflexive(a);
    }
  }

  lemma SteadyReflexive(a: Core)
    ensures Steady(a, a)
  {
  }

  lemma CompleteSteady(a: Core, c: Id, outcome: Outcome)
    ensures Steady(a, Complete(a, c, outcome))
  {
    if IsLive(a, c) {
      var b := a.(history := a.history[c := History(a, c) + [outcome]]);
      assert Accumulates(a, b);
      hide Accumulates, EachCalledBack;
      SubmitAllSteady(b, CallbackOf(a.cmds[c].request));
      AccumulatesTransitive(a, b, Complete(a, c, outcome));
      if EachCalledBack(a) {
        CompleteKeepsCalls(a, c, outcome);
      }
    } else {
      QuietSteady(a, Fault(a));
    }
  }

  lemma SetCallSteady(a: Core, c: Id, call: Call)
    ensures Steady(a, SetCall(a, c, call))
  {
    QuietSteady(a, SetCall(a, c, call));
  }

  lemma DeleteSteady(a: Core, c: Id)
    ensures Steady(a, Delete(a, c))
  {
    hide Steady, EachCalledBack;
    QuietSteady(a, Delete(a, c));
  }

  lemma CancelCommandSteady(a: Core, c: Id)
    ensures Steady(a, CancelCommand(a, c))
  {
    if IsLive(a, c) {
      var kind := KindOf(a, c);
      var b := if kind.SubscribeOwnerChanged? then a else SetCall(a, c, CancelledCall(CallOf(a, c)));
      SetCallSteady(a, c, CancelledCall(CallOf(a, c)));
      SteadyReflexive(a);
      hide Steady, SetCall, Complete;
      CompleteSteady(b, c, Outcome(Cancelled, None));
      SteadyTransitive(a, b, Complete(b, c, Outcome(Cancelled, None)));
    } else {
      FaultSteady(a);
    }
  }

  lemma FinishSteady(a: Core, c: Id)
    ensures Steady(a, Delete(CancelCommand(a, c), c))
  {
    hide Steady, CancelCommand, Delete;
    CancelCommandSteady(a, c);
    DeleteSteady(CancelCommand(a, c), c);
    SteadyTransitive(a, CancelCommand(a, c), Delete(CancelCommand(a, c), c));
  }

  lemma {:induction false} CancelAllSteady(a: Core, pending: set<Id>)
    ensures Steady(a, CancelAll(a, pending))
    decreases pending
  {
    hide Steady, CancelCommand, Delete;
    if pending == {} {
      SteadyReflexive(a);
    } else {
      var c := Least(pending);
      var b := Delete(CancelCommand(a, c), c);
      FinishSteady(a, c);
      CancelAllSteady(b, pending - {c});
      SteadyTransitive(a, b, CancelAll(b, pending - {c}));
    }
  }

  lemma SteadyIgnoresObjects(a: Core, b: Core, objs: set<Id>)
    requires Steady(a, b)
    ensures Steady(a, b.(objs := objs))
  {
    QuietSteady(b, b.(objs := objs));
    SteadyTransitive(a, b, b.(objs := objs));
  }

  lemma FaultSteady(a: Core)
    ensures Steady(a, Fault(a))
  {
    QuietSteady(a, Fault(a));
  }

  lemma DestroySteady(s: State, k: Id)
    requires k in s.conns
    ensures Steady(s.core, Destroy(s, k).core)
  {
    FaultSteady(s.core);
    SteadyReflexive(s.core);
    var t := Unref(s.(conns := s.conns - {k}), s.conns[k].dbus);
    hide Steady, CancelAll;
    CancelAllSteady(t.core, s.conns[k].pending);
    var a := CancelAll(t.core, s.conns[k].pending);
    SteadyIgnoresObjects(t.core, a, a.objs - s.conns[k].subs - s.conns[k].regs);
    SteadyTransitive(s.core, t.core, Destroy(s, k).core);
  }

  lemma DecRefSteady(s: State, k: Id)
    requires k in s.conns && s.conns[k].refCount > 0
    ensures Steady(s.core, DecRef(s, k).core)
  {
    hide Steady, Destroy, Fault;
    DestroySteady(s, k);
    FaultSteady(s.core);
    SteadyReflexive(s.core);
  }

  lemma {:induction false} ForceReleaseAllSteady(s: State)
    requires CountsPositive(s)
    ensures Steady(s.core, ForceReleaseAll(s).core)
    decreases |s.conns.Keys|, if s.conns.Keys == {} then 0 else s.conns[Least(s.conns.Keys)].refCount
  {
    hide Steady, DecRef;
    if s.conns.Keys == {} {
      SteadyReflexive(s.core);
    } else {
      var k := Least(s.conns.Keys);
      var t := DecRef(s, k);
      DecRefSteady(s, k);
      assert if s.conns[k].refCount == 1 then t.conns.Keys == s.conns.Keys - {k} else t.conns.Keys == s.conns.Keys;
      ForceReleaseAllSteady(t);
      SteadyTransitive(s.core, t.core, ForceReleaseAll(t).core);
    }
  }

  lemma CreateSteady(s: State, isPrivate: bool, opening: Opening)
    ensures Steady(s.core, Create(s, isPrivate, opening).0.core)
  {
    FaultSteady(s.core);
    SteadyReflexive(s.core);
    QuietSteady(s.core, s.core.(nextId := s.core.nextId + 1));
    hide Steady;
  }

  lemma CancelByHandleSteady(s: State, h: Uint32)
    ensures Steady(s.core, CancelByHandle(s, h).0.core)
  {
    hide Steady, CancelCommand, Delete, Fault;
    SteadyReflexive(s.core);
    if ConnsMatching(s, h) != {} {
      var c := Least(Matching(s, Least(ConnsMatching(s, h)), h));
      FinishSteady(s.core, c);
      var b := Delete(CancelCommand(s.core, c), c);
      FaultSteady(b);
      SteadyTransitive(s.core, b, Fault(b));
    }
  }

  lemma ParkSteady(s: State, c: Id, k: Id, answer: Answer)
    requires k in s.conns && c in s.core.cmds
    ensures Steady(s.core, Park(s, c, k, answer).core)
  {
    SetCallSteady(s.core, c, Unarmed);
    SetCallSteady(s.core, c, CallCancelled);
    var a := SetCall(s.core, c, Waiting);
    QuietSteady(s.core, a.(cmds := a.cmds[c := a.cmds[c].(keep := true)]));
    hide Steady, Complete;
    CompleteSteady(s.core, c, Outcome(NoMemory, None));
    FailSteady(s, SetCall(s.core, c, Unarmed), c, NoMemory);
    FailSteady(s, SetCall(s.core, c, CallCancelled), c, NoMemory);
  }

  lemma FailSteady(s: State, b: Core, c: Id, code: Code)
    requires Steady(s.core, b)
    ensures Steady(s.core, Fail(s.(core := b), c, code).core)
  {
    hide Steady, Complete;
    CompleteSteady(b, c, Outcome(code, None));
    SteadyTransitive(s.core, b, Complete(b, c, Outcome(code, None)));
  }

  lemma PlainFailSteady(s: State, c: Id, code: Code)
    ensures Steady(s.core, Fail(s, c, code).core)
  {
    hide Steady, Complete;
    CompleteSteady(s.core, c, Outcome(code, None));
  }

  lemma ParkIfConnectedSteady(s: State, c: Id, k: Id, answer: Answer)
    requires c in s.core.cmds
    ensures Steady(s.core, ParkIfConnected(s, c, k, answer).core)
  {
    hide Steady, Park, Deliver;
    if Connected(s, k, answer) {
      ParkSteady(s, c, k, answer);
    } else {
      PlainFailSteady(s, c, NotConnected);
    }
  }

  lemma ShortSteady(s: State, c: Id)
    ensures Steady(s.core, s.core) && Steady(s.core, Fault(s.core))
    ensures forall code :: Steady(s.core, Fail(s, c, code).core)
  {
    hide Steady, Deliver, Fault;
    SteadyReflexive(s.core);
    FaultSteady(s.core);
    forall code ensures Steady(s.core, Fail(s, c, code).core) {
      PlainFailSteady(s, c, code);
    }
  }

  lemma RemovalSteady(s: State, c: Id, i: Id, found: bool, answer: Answer)
    requires c in s.core.cmds
    ensures Steady(s.core, ExecuteRemoval(s, c, i, found, answer).core)
  {
    hide Steady, Deliver, Fault, ParkIfConnected;
    ShortSteady(s, c);
    if i in s.core.cmds && CreatesObject(KindOf(s.core, i)) {
      ParkIfConnectedSteady(s, c, KindOf(s.core, i).conn, answer);
    }
  }

  /** Only a shutdown tells the loop to quit; all else is steady for it too. */
  lemma ExecuteSteady(s: State, c: Id, answer: Answer)
    requires c in s.core.cmds && CountsPositive(s)
    ensures KindOf(s.core, c).Shutdown? ==> Steady(s.core.(quit := true), Execute(s, c, answer).core)
    ensures !KindOf(s.core, c).Shutdown? ==> Steady(s.core, Execute(s, c, answer).core)
  {
    ShortSteady(s, c);
    hide Steady, Deliver, Complete, Fault, ParkIfConnected, Park, Create, Release, CancelByHandle, ForceReleaseAll,
      ExecuteRemoval, CountsPositive;
    match KindOf(s.core, c)
    case OpenConnection(isPrivate) =>
      CreateSteady(s, isPrivate, answer.opening);
      var r := Create(s, isPrivate, answer.opening);
      ThenDeliverSteady(s, r.0, c, r.1);
    case CloseConnection(k) =>
      ReleaseSteady(s, k);
      ThenDeliverSteady(s, Release(s, k), c, Outcome(Ok, None));
    case SubscribeOwnerChanged(k) => if k in s.conns { ParkSteady(s, c, k, answer); }
    case Unsubscribe(i) => RemovalSteady(s, c, i, SubscriptionExists(s, i), answer);
    case UnregisterService(i) => RemovalSteady(s, c, i, ServiceExists(s, i), answer);
    case Subscribe(k) => ParkIfConnectedSteady(s, c, k, answer);
    case RegisterService(k) => ParkIfConnectedSteady(s, c, k, answer);
    case Invoke(k, _) => ParkIfConnectedSteady(s, c, k, answer);
    case NameHasOwner(k) => ParkIfConnectedSteady(s, c, k, answer);
    case Emit(_) =>
    case Cancel(h) =>
      CancelByHandleSteady(s, h);
      var r := CancelByHandle(s, h);
      ThenDeliverSteady(s, r.0, c, Outcome(r.1, None));
    case ReturnReply(_) =>
    case FreeRequestContext =>
    case Shutdown =>
      ForceReleaseAllSteady(s);
      var t := ForceReleaseAll(s);
      QuitSteady(s.core, t.core);
      ThenDeliverSteady(s.(core := s.core.(quit := true)), t.(core := t.core.(quit := true)), c, Outcome(Ok, None));
  }

  lemma ThenDeliverSteady(s: State, t: State, c: Id, outcome: Outcome)
    requires Steady(s.core, t.core)
    ensures Steady(s.core, Deliver(t, c, outcome).core)
  {
    hide Steady, Complete;
    CompleteSteady(t.core, c, outcome);
    SteadyTransitive(s.core, t.core, Complete(t.core, c, outcome));
  }

  lemma ReleaseSteady(s: State, k: Id)
    requires CountsPositive(s)
    ensures Steady(s.core, Release(s, k).core)
  {
    hide Steady, DecRef;
    if k in s.conns {
      DecRefSteady(s, k);
    } else {
      SteadyReflexive(s.core);
    }
  }

  lemma QuitSteady(a: Core, b: Core)
    requires Steady(a, b)
    ensures Steady(a.(quit := true), b.(quit := true))
  {
    forall c: Id | c < a.nextId ensures CmdProgress(a.(quit := true), b.(quit := true), c) {
      assert CmdProgress(a, b, c);
    }
    hide EachCalledBack;
    QuietStep(a.(quit := true), a);
    QuietStep(b, b.(quit := true));
  }

  lemma OwnerSteady(a: Core, c: Id)
    requires c in a.cmds
    ensures Steady(a, a.(cmds := a.cmds[c := a.cmds[c].(owns := false)]))
  {
    QuietSteady(a, a.(cmds := a.cmds[c := a.cmds[c].(owns := false)]));
  }

  lemma DisownSteady(s: State, t: State, c: Id)
    requires Steady(s.core, t.core)
    ensures Steady(s.core, Disown(t, c).core)
  {
    hide Steady, Fault;
    FaultSteady(t.core);
    if c in t.core.cmds {
      OwnerSteady(t.core, c);
    }
    SteadyTransitive(s.core, t.core, Disown(t, c).core);
  }

  lemma HandOverSteady(s: State, c: Id, k: Id)
    requires k in s.conns && c in s.core.cmds
    ensures Steady(s.core, HandOver(s, c, k).core)
  {
    hide Steady, Complete, Disown;
    var o := Outcome(Ok, Some(c));
    CompleteSteady(s.core, c, o);
    DisownSteady(s, Deliver(WithConn(s, k, WithObject(s.conns[k], KindOf(s.core, c), c)), c, o), c);
  }

  lemma TakeAwaySteady(s: State, c: Id, k: Id, i: Id)
    requires k in s.conns && c in s.core.cmds
    ensures Steady(s.core, TakeAway(s, c, k, i).core)
  {
    hide Steady, Complete;
    var b := s.core.(objs := s.core.objs - {i});
    SteadyReflexive(s.core);
    SteadyIgnoresObjects(s.core, s.core, b.objs);
    CompleteSteady(b, c, Outcome(Ok, None));
    SteadyTransitive(s.core, b, Complete(b, c, Outcome(Ok, None)));
  }

  lemma ReplyActionSteady(s: State, c: Id, k: Id, reply: Reply)
    requires c in s.core.cmds
    ensures Steady(s.core, ReplyAction(s, c, k, reply).core)
  {
    hide Steady, Deliver, Fault, HandOver, TakeAway;
    ShortSteady(s, c);
    if k in s.conns {
      HandOverSteady(s, c, k);
      match KindOf(s.core, c)
      case Unsubscribe(i) => TakeAwaySteady(s, c, k, i);
      case UnregisterService(i) => TakeAwaySteady(s, c, k, i);
      case _ =>
    }
  }

  lemma DisposeSteady(s: State, t: State, c: Id)
    requires Steady(s.core, t.core)
    ensures Steady(s.core, Dispose(t, c).core)
  {
    hide Steady, Delete;
    DeleteSteady(t.core, c);
    SteadyTransitive(s.core, t.core, Delete(t.core, c));
  }

  lemma UnregisterSteady(s: State, t: State, k: Id, c: Id)
    requires Steady(s.core, t.core)
    ensures Steady(s.core, UnregisterPending(t, k, c).core)
  {
    hide Steady, Fault;
    FaultSteady(t.core);
    SteadyTransitive(s.core, t.core, Fault(t.core));
  }

  lemma NotifySteady(s: State, c: Id, reply: Reply, connected: bool)
    ensures Steady(s.core, Notify(s, c, reply, connected).core)
  {
    hide Steady, Deliver, Delete, ReplyAction, UnregisterPending, Dispose, Fault, SetCall;
    FaultSteady(s.core);
    if IsLive(s.core, c) && !NotifyReadsFreed(s.core, c) && Target(s.core, KindOf(s.core, c)).Some? {
      var kind, k := KindOf(s.core, c), Target(s.core, KindOf(s.core, c)).value;
      var u := s.(core := SetCall(s.core, c, Stolen));
      SetCallSteady(s.core, c, Stolen);
      if CannotRead(kind, reply, connected && k in s.conns) {
        ThenDeliverSteady(s, u, c, Outcome(Internal, None));
        DisposeSteady(s, Fail(u, c, Internal), c);
      } else {
        SetCallKeepsCmds(s.core, c);
        ReplyActionSteady(u, c, k, reply);
        SteadyTransitive(s.core, u.core, ReplyAction(u, c, k, reply).core);
        UnregisterSteady(s, ReplyAction(u, c, k, reply), k, c);
        DisposeSteady(s, UnregisterPending(ReplyAction(u, c, k, reply), k, c), c);
      }
    }
  }

  lemma SetCallKeepsCmds(a: Core, c: Id)
    ensures SetCall(a, c, Stolen).cmds == a.cmds
  {
  }
}
