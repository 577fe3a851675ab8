/** What the client of a command has been told when the command has been executed, as conditions on the
    state before and on the answers of D-Bus. */
module ExecutionOutcomes {
  import opened Handles
  import opened Commands
  import opened Wrappers
  import opened Connections
  import opened CoreInvariant
  import opened Invariant
  import opened Execution
  import opened Runs
  import opened Shutdowns
  import opened Guarantees
  import opened Cancellation
  import opened Preconditions

  // ----- the conditions -----

  /** What the command names is not there: no cached connection has the object to remove, or the
      connection to watch for owner changes is not cached. */
  predicate Missing(s: State, kind: Kind) {
    match kind
    case Unsubscribe(i) => forall k :: k in s.conns ==> i !in s.conns[k].subs
    case UnregisterService(i) => forall k :: k in s.conns ==> i !in s.conns[k].regs
    case SubscribeOwnerChanged(k) => k !in s.conns
    case _ => false
  }

  /** The connection to send on is gone, or closed. Watching for owner changes does not look. */
  predicate Down(s: State, kind: Kind, answer: Answer) {
    match kind
    case Subscribe(k) => k !in s.conns || !answer.connected
    case RegisterService(k) => k !in s.conns || !answer.connected
    case Invoke(k, _) => k !in s.conns || !answer.connected
    case NameHasOwner(k) => k !in s.conns || !answer.connected
    case Unsubscribe(_) => !answer.connected
    case UnregisterService(_) => !answer.connected
    case _ => false
  }

  predicate Sent(answer: Answer) {
    answer.message && answer.append && answer.send
  }

  // ----- what each kind is told -----

  /** A request that waits for a reply: it is told nothing if all goes well, and the error otherwise.
      Success is never reported at this point. */
  ghost predicate RequestTold(s: State, t: State, c: Id, answer: Answer)
    requires c in s.core.cmds
  {
    var kind, told := KindOf(s.core, c), History(t.core, c);
    && c in t.core.cmds
    && (t.core.cmds[c].keep <==> !Missing(s, kind) && !Down(s, kind, answer) && Sent(answer) && answer.notify && answer.register)
    && (t.core.cmds[c].keep ==> told == [] && CallOf(t.core, c).Waiting?)
    && (!t.core.cmds[c].keep ==>
          && |told| == 1 && told[0].handle.None?
          && (told[0].code.NotFound? <==> Missing(s, kind))
          && (told[0].code.NotConnected? <==> !Missing(s, kind) && Down(s, kind, answer))
          && (told[0].code.NoMemory? <==> !Missing(s, kind) && !Down(s, kind, answer)))
  }

  /** An invocation without a reply is told nothing if and only if it was sent. */
  ghost predicate OneWayTold(s: State, t: State, c: Id, answer: Answer)
    requires c in s.core.cmds
  {
    var kind, told := KindOf(s.core, c), History(t.core, c);
    && (told == [] <==> !Down(s, kind, answer) && Sent(answer))
    && (told != [] ==>
          && |told| == 1 && told[0].handle.None?
          && (told[0].code.NotConnected? <==> Down(s, kind, answer))
          && (told[0].code.NoMemory? <==> !Down(s, kind, answer)))
  }

  /** An emitted signal: success if and only if it was sent. */
  ghost predicate EmitTold(s: State, t: State, c: Id, i: Id, answer: Answer)
    requires i in s.core.cmds && CreatesObject(KindOf(s.core, i))
  {
    var told := History(t.core, c);
    var up := KindOf(s.core, i).conn in s.conns && answer.connected;
    && |told| == 1 && told[0].handle.None?
    && (told[0].code.Ok? <==> up && Sent(answer))
    && (told[0].code.NoMemory? <==> !answer.message || !answer.append)
    && (told[0].code.NotConnected? <==> answer.message && answer.append && !up)
    && (told[0].code.ConnSend? <==> answer.message && answer.append && up && !answer.send)
  }

  /** An opening: success if and only if a connection was opened that is cached already or could be set
      up; then the handle of its wrapper, and otherwise no handle and the error. */
  ghost predicate OpenTold(s: State, t: State, c: Id, opening: Opening) {
    var told := History(t.core, c);
    && |told| == 1
    && (told[0].code.Ok? <==> opening.Opened? && (opening.setUp || exists k :: k in s.conns && s.conns[k].dbus == opening.dbus))
    && (told[0].code.Ok? <==> told[0].handle.Some?)
    && (told[0].code.Ok? ==> told[0].handle.value in t.conns && t.conns[told[0].handle.value].dbus == opening.dbus)
    && (!told[0].code.Ok? ==> told[0].code == if opening.OpenFailed? then opening.code else DBusError)
  }

  /** A cancellation: success if and only if some command with the handle is pending. */
  ghost predicate CancelTold(s: State, t: State, c: Id, h: Uint32) {
    var found := exists k, d :: k in s.conns && d in s.conns[k].pending && d in s.core.cmds && s.core.cmds[d].handle == h;
    History(t.core, c) == [Outcome(if found then Ok else NotFound, None)]
  }

  /** `t` is the state after executing `c` in `s`. */
  ghost predicate Told(s: State, t: State, c: Id, answer: Answer)
    requires c in s.core.cmds
  {
    match KindOf(s.core, c)
    case OpenConnection(_) => OpenTold(s, t, c, answer.opening)
    case CloseConnection(_) => History(t.core, c) == [Outcome(Ok, None)]
    case Invoke(_, noReply) => if noReply then OneWayTold(s, t, c, answer) else RequestTold(s, t, c, answer)
    case Emit(service) =>
      (match service
       case None => History(t.core, c) == []
       case Some(i) => i in s.core.cmds && CreatesObject(KindOf(s.core, i)) && EmitTold(s, t, c, i, answer))
    case Cancel(h) => CancelTold(s, t, c, h)
    case ReturnReply(hasContext) =>
      var told := History(t.core, c);
      && |told| == 1 && told[0].handle.None? && (told[0].code.BadArgs? <==> !hasContext)
      && (hasContext ==> told[0].code == answer.status)
    case FreeRequestContext => History(t.core, c) == []
    case Shutdown => History(t.core, c) == [Outcome(Ok, None)]
    case _ => RequestTold(s, t, c, answer)
  }

  // ----- proofs -----

  lemma DeliverTells(s: State, c: Id, outcome: Outcome, hand: set<Id>)
    requires Ready(s, c, hand)
    ensures var t := Deliver(s, c, outcome);
            History(t.core, c) == [outcome] && c in t.core.cmds && !t.core.cmds[c].keep && t.conns == s.conns
  {
    hide Inv, Deliver, Extends;
    DeliverKeeps(s, c, outcome, hand);
    ExtendsKeepsCmd(s.core.(history := s.core.history[c := [outcome]]), Deliver(s, c, outcome).core, c);
    DeliverKeepsConns(s, c, outcome);
  }

  lemma DeliverKeepsConns(s: State, c: Id, outcome: Outcome)
    ensures Deliver(s, c, outcome).conns == s.conns
  {
  }

  /** Sending the request on a cached connection. */
  lemma ParkTells(s: State, c: Id, k: Id, answer: Answer, hand: set<Id>)
    requires Ready(s, c, hand) && k in s.conns
    ensures var t := Park(s, c, k, answer); var told := History(t.core, c);
            && c in t.core.cmds
            && (t.core.cmds[c].keep <==> Sent(answer) && answer.notify && answer.register)
            && (t.core.cmds[c].keep ==> told == [] && CallOf(t.core, c).Waiting?)
            && (!t.core.cmds[c].keep ==> told == [Outcome(NoMemory, None)])
  {
    hide Inv, Deliver;
    if !Sent(answer) {
      DeliverTells(s, c, Outcome(NoMemory, None), hand);
    } else if !answer.notify {
      SetCallReady(s, c, Unarmed, hand);
      DeliverTells(s.(core := SetCall(s.core, c, Unarmed)), c, Outcome(NoMemory, None), hand);
    } else if !answer.register {
      SetCallReady(s, c, CallCancelled, hand);
      DeliverTells(s.(core := SetCall(s.core, c, CallCancelled)), c, Outcome(NoMemory, None), hand);
    }
  }

  lemma ParkIfConnectedTells(s: State, c: Id, k: Id, answer: Answer, hand: set<Id>)
    requires Ready(s, c, hand)
    ensures var t, up := ParkIfConnected(s, c, k, answer), k in s.conns && answer.connected; var told := History(t.core, c);
            && c in t.core.cmds
            && (t.core.cmds[c].keep <==> up && Sent(answer) && answer.notify && answer.register)
            && (t.core.cmds[c].keep ==> told == [] && CallOf(t.core, c).Waiting?)
            && (!t.core.cmds[c].keep ==> told == [Outcome(if up then NoMemory else NotConnected, None)])
  {
    hide Inv, Deliver, Park, Ready;
    if Connected(s, k, answer) {
      ParkTells(s, c, k, answer, hand);
    } else {
      DeliverTells(s, c, Outcome(NotConnected, None), hand);
    }
  }

  lemma RequestIsTold(s: State, c: Id, answer: Answer, hand: set<Id>)
    requires c in s.core.cmds && Ready(s, c, hand) && CountsPositive(s) && ExecuteAllowed(s, c) && MayPark(KindOf(s.core, c))
    ensures RequestTold(s, Execute(s, c, answer), c, answer)
  {
    hide Inv, Deliver, Park, ParkIfConnected, Ready, ExecuteAllowed, CountsPositive;
    match KindOf(s.core, c)
    case Subscribe(k) => ParkIfConnectedTells(s, c, k, answer, hand);
    case RegisterService(k) => ParkIfConnectedTells(s, c, k, answer, hand);
    case Invoke(k, _) => ParkIfConnectedTells(s, c, k, answer, hand);
    case NameHasOwner(k) => ParkIfConnectedTells(s, c, k, answer, hand);
    case SubscribeOwnerChanged(k) =>
      if k in s.conns {
        ParkTells(s, c, k, answer, hand);
      } else {
        DeliverTells(s, c, Outcome(NotFound, None), hand);
      }
    case Unsubscribe(i) => RemovalIsTold(s, c, i, answer, hand);
    case UnregisterService(i) => RemovalIsTold(s, c, i, answer, hand);
  }

  lemma LookUpMisses(s: State, kind: Kind, i: Id)
    requires Removes(kind, i)
    ensures Missing(s, kind) <==> !LooksUp(s, kind, i)
  {
  }

  lemma RemovalStepIs(s: State, c: Id, i: Id, answer: Answer)
    requires c in s.core.cmds && Removes(KindOf(s.core, c), i)
    ensures RemovalStep(s, c, answer) == ExecuteRemoval(s, c, i, LooksUp(s, KindOf(s.core, c), i), answer)
  {
    hide ExecuteRemoval;
  }

  lemma RemovalIsTold(s: State, c: Id, i: Id, answer: Answer, hand: set<Id>)
    requires c in s.core.cmds && Ready(s, c, hand) && Removes(KindOf(s.core, c), i)
    ensures RequestTold(s, RemovalStep(s, c, answer), c, answer)
  {
    hide Inv, Deliver, ParkIfConnected, Ready, LooksUp, Missing, RemovalStep;
    ReadyInv(s, c, hand);
    LookUpMisses(s, KindOf(s.core, c), i);
    RemovalStepIs(s, c, i, answer);
    if LooksUp(s, KindOf(s.core, c), i) {
      LookedUp(s, KindOf(s.core, c), i, hand);
      ParkIfConnectedTells(s, c, KindOf(s.core, i).conn, answer, hand);
    } else {
      DeliverTells(s, c, Outcome(NotFound, None), hand);
    }
  }

  lemma LookedUp(s: State, kind: Kind, i: Id, hand: set<Id>)
    requires Inv(s, hand) && Removes(kind, i) && LooksUp(s, kind, i)
    ensures i in s.core.objs && i in s.core.cmds && CreatesObject(KindOf(s.core, i)) && KindOf(s.core, i).conn in s.conns
  {
    FoundObject(s, i, hand);
  }

  lemma ReadyInv(s: State, c: Id, hand: set<Id>)
    requires Ready(s, c, hand)
    ensures Inv(s, hand) && History(s.core, c) == []
  {
  }

  lemma OneWayIsTold(s: State, c: Id, k: Id, answer: Answer, hand: set<Id>)
    requires c in s.core.cmds && Ready(s, c, hand) && KindOf(s.core, c) == Invoke(k, true)
    ensures OneWayTold(s, SendOnly(s, c, k, answer), c, answer)
  {
    ReadyInv(s, c, hand);
    hide Inv, Deliver, Ready;
    DeliverTells(s, c, Outcome(NotConnected, None), hand);
    DeliverTells(s, c, Outcome(NoMemory, None), hand);
  }

  lemma EmitIsTold(s: State, c: Id, i: Id, answer: Answer, hand: set<Id>)
    requires c in s.core.cmds && Ready(s, c, hand) && i in s.core.objs && KindOf(s.core, c) == Emit(Some(i))
    ensures i in s.core.cmds && CreatesObject(KindOf(s.core, i)) && EmitTold(s, EmitSignal(s, c, Some(i), answer), c, i, answer)
  {
    hide Inv, Deliver, Ready;
    ReadyInv(s, c, hand);
    LiveObjectIsKnown(s, i, hand);
    var up := Connected(s, KindOf(s.core, i).conn, answer);
    var code :=
      if !answer.message || !answer.append then NoMemory
      else if !up then NotConnected
      else if !answer.send then ConnSend else Ok;
    assert EmitSignal(s, c, Some(i), answer) == Deliver(s, c, Outcome(code, None));
    hide EmitSignal;
    DeliverTells(s, c, Outcome(code, None), hand);
  }

  lemma EmitNothing(s: State, c: Id, answer: Answer, hand: set<Id>)
    requires Ready(s, c, hand)
    ensures EmitSignal(s, c, None, answer) == s && History(s.core, c) == []
  {
    hide Inv;
  }

  lemma CreateTells(s: State, isPrivate: bool, opening: Opening)
    ensures var (t, o) := Create(s, isPrivate, opening);
            && (o.code.Ok? <==> opening.Opened? && (opening.setUp || exists k :: k in s.conns && s.conns[k].dbus == opening.dbus))
            && (o.code.Ok? <==> o.handle.Some?)
            && (o.code.Ok? ==> o.handle.value in t.conns && t.conns[o.handle.value].dbus == opening.dbus)
            && (!o.code.Ok? ==> o.code == if opening.OpenFailed? then opening.code else DBusError)
  {
    if opening.Opened? && CachedOn(s, opening.dbus) != {} {
      assert Least(CachedOn(s, opening.dbus)) in s.conns;
    }
  }

  lemma OpenIsTold(s: State, c: Id, isPrivate: bool, answer: Answer, hand: set<Id>)
    requires c in s.core.cmds && Ready(s, c, hand)
    ensures var r := Create(s, isPrivate, answer.opening); OpenTold(s, Deliver(r.0, c, r.1), c, answer.opening)
  {
    ReadyInv(s, c, hand);
    CreateKeeps(s, isPrivate, answer.opening, hand);
    CreateTells(s, isPrivate, answer.opening);
    hide Inv, Deliver, Create;
    SparesReady(s, Create(s, isPrivate, answer.opening).0, c, hand);
    hide Ready;
    var r := Create(s, isPrivate, answer.opening);
    DeliverTells(r.0, c, r.1, hand);
  }

  lemma CancelCode(s: State, h: Uint32)
    ensures CancelByHandle(s, h).1 ==
            if exists k, d :: k in s.conns && d in s.conns[k].pending && d in s.core.cmds && s.core.cmds[d].handle == h
            then Ok else NotFound
  {
    hide CancelCommand, Delete;
    if k, d :| k in s.conns && d in s.conns[k].pending && d in s.core.cmds && s.core.cmds[d].handle == h {
      assert d in Matching(s, k, h);
      assert k in ConnsMatching(s, h);
    }
    if ConnsMatching(s, h) != {} {
      var k := Least(ConnsMatching(s, h));
      var d := Least(Matching(s, k, h));
      assert k in s.conns && d in s.conns[k].pending;
    }
  }

  lemma CancelIsTold(s: State, c: Id, h: Uint32, hand: set<Id>)
    requires c in s.core.cmds && Ready(s, c, hand)
    ensures var r := CancelByHandle(s, h); CancelTold(s, Fail(r.0, c, r.1), c, h)
  {
    ReadyInv(s, c, hand);
    CancelByHandleKeeps(s, h, hand);
    CancelCode(s, h);
    hide Inv, Deliver, CancelByHandle;
    SparesReady(s, CancelByHandle(s, h).0, c, hand);
    hide Ready;
    var r := CancelByHandle(s, h);
    DeliverTells(r.0, c, Outcome(r.1, None), hand);
  }

  lemma CloseIsTold(s: State, c: Id, k: Id, hand: set<Id>)
    requires c in s.core.cmds && Ready(s, c, hand) && CountsPositive(s)
    ensures History(Fail(Release(s, k), c, Ok).core, c) == [Outcome(Ok, None)]
  {
    ReadyInv(s, c, hand);
    ReleaseKeeps(s, k, hand);
    hide Inv, Deliver, Release;
    SparesReady(s, Release(s, k), c, hand);
    hide Ready;
    DeliverTells(Release(s, k), c, Outcome(Ok, None), hand);
  }

  lemma ShutdownIsTold(s: State, c: Id, hand: set<Id>)
    requires c in s.core.cmds && Ready(s, c, hand) && CountsPositive(s)
    ensures var t := ForceReleaseAll(s); History(Fail(t.(core := t.core.(quit := true)), c, Ok).core, c) == [Outcome(Ok, None)]
  {
    ReadyInv(s, c, hand);
    ForceReleaseAllKeeps(s, hand);
    hide Inv, Deliver, ForceReleaseAll;
    var t := ForceReleaseAll(s);
    QuitKeeps(t, hand);
    SparesReady(s, t, c, hand);
    DeliverTells(t.(core := t.core.(quit := true)), c, Outcome(Ok, None), hand);
  }

  lemma ReplyIsTold(s: State, c: Id, answer: Answer, hand: set<Id>)
    requires c in s.core.cmds && Ready(s, c, hand) && CountsPositive(s) && KindOf(s.core, c).ReturnReply?
    ensures Told(s, Execute(s, c, answer), c, answer)
  {
    hide Inv, Deliver, Ready, CountsPositive;
    DeliverTells(s, c, Outcome(if KindOf(s.core, c).hasContext then answer.status else BadArgs, None), hand);
  }

  lemma FreeingTellsNothing(s: State, c: Id, answer: Answer, hand: set<Id>)
    requires c in s.core.cmds && Ready(s, c, hand) && CountsPositive(s) && KindOf(s.core, c).FreeRequestContext?
    ensures Told(s, Execute(s, c, answer), c, answer)
  {
    hide Inv, CountsPositive;
  }

  /** Executing a command of any kind, taken in hand, tells its client exactly what the conditions say. */
  lemma ExecuteTells(s: State, c: Id, answer: Answer, hand: set<Id>)
    requires c in s.core.cmds && Ready(s, c, hand) && CountsPositive(s) && ExecuteAllowed(s, c)
    ensures Told(s, Execute(s, c, answer), c, answer)
  {
    hide Inv, Deliver, Create, Release, CancelByHandle, ForceReleaseAll, SendOnly, EmitSignal, Ready, NoneInFlight, CountsPositive,
      RequestTold, OneWayTold, EmitTold, OpenTold, CancelTold, Park, ParkIfConnected, ExecuteRemoval;
    match KindOf(s.core, c)
    case OpenConnection(isPrivate) => OpenIsTold(s, c, isPrivate, answer, hand);
    case CloseConnection(k) => CloseIsTold(s, c, k, hand);
    case Invoke(k, noReply) =>
      if noReply {
        OneWayIsTold(s, c, k, answer, hand);
      } else {
        RequestIsTold(s, c, answer, hand);
      }
    case Emit(service) =>
      match service {
        case None => EmitNothing(s, c, answer, hand);
        case Some(i) => EmitIsTold(s, c, i, answer, hand);
      }
    case Cancel(h) => CancelIsTold(s, c, h, hand);
    case ReturnReply(_) => ReplyIsTold(s, c, answer, hand);
    case FreeRequestContext => FreeingTellsNothing(s, c, answer, hand);
    case Shutdown => ShutdownIsTold(s, c, hand);
    case _ => RequestIsTold(s, c, answer, hand);
  }

  // ----- once the command is off the queue and gone -----

  lemma DisposalTells(p: State, t: State, c: Id, answer: Answer)
    requires c in p.core.cmds && Told(p, t, c, answer)
    ensures Told(p, Dispose(t, c), c, answer)
  {
    DisposalKeeps(t, c);
    hide Dispose;
  }

  lemma DisposalKeeps(t: State, c: Id)
    ensures var u := Dispose(t, c);
            u.core.cmds == t.core.cmds && u.core.history == t.core.history && u.core.calls == t.core.calls && u.conns == t.conns
  {
  }

  /** One turn of the dispatcher tells the client of the front command what the conditions say of the
      state without it. */
  lemma FrontTells(s: State, answer: Answer)
    requires Good(s) && s.core.queue != [] && s.core.pipe > 0 && s.core.queue[0] in s.core.cmds
    requires ExecuteAllowed(TakenOff(s), s.core.queue[0])
    ensures CountsPositive(s) && Told(TakenOff(s), ExecuteFront(s, answer), s.core.queue[0], answer)
  {
    GoodCounts(s);
    PoppedReady(s);
    hide Inv, Good, Execute, ExecuteAllowed, Told, Dispose, Settled;
    var p, c := TakenOff(s), s.core.queue[0];
    ExecuteTells(p, c, answer, {c});
    ExecuteSettles(p, c, answer, {c});
    SettledIsKnown(Execute(p, c, answer), c, {c});
    DisposalTells(p, Execute(p, c, answer), c, answer);
  }

  lemma SettledIsKnown(t: State, c: Id, hand: set<Id>)
    requires Settled(t, c, hand)
    ensures c in t.core.cmds
  {
  }

  /** A command that cancels by a handle an earlier submission returned is told Ok if and only if its
      target was pending, and that it was not found otherwise. */
  lemma CancelTellsOfTarget(s: State, c: Id, t: Id, answer: Answer)
    requires Good(s) && s.core.queue != [] && s.core.pipe > 0 && s.core.queue[0] == c
    requires c in s.core.cmds && t in s.core.cmds && NoAlias(s, t)
    requires 0 < s.core.cmds[t].serial < s.core.cmds[c].serial && KindOf(s.core, c) == Cancel(s.core.cmds[t].handle)
    ensures CountsPositive(s)
    ensures History(ExecuteFront(s, answer).core, c) == [Outcome(if Pending(s, t) then Ok else NotFound, None)]
  {
    CancelIsAllowed(s, c);
    hide Good, NoAlias;
    FrontTells(s, answer);
    CancelIsPrecise(s, c, t);
    CancelCode(TakenOff(s), s.core.cmds[t].handle);
  }

  lemma CancelIsAllowed(s: State, c: Id)
    requires s.core.queue != [] && s.core.pipe > 0 && c in s.core.cmds && KindOf(s.core, c).Cancel?
    ensures ExecuteAllowed(TakenOff(s), c)
  {
  }
}
