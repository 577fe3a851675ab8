/** Executing a command keeps the invariant and settles the command: it is parked, or it has had
    its completion, or it is one of those that may stay silent. */
module Execution {
  import opened Handles
  import opened Commands
  import opened Wrappers
  import opened Connections
  import opened CoreInvariant
  import opened Invariant

  /** The command has been taken in hand and nothing has happened to it yet. */
  ghost predicate Ready(s: State, c: Id, hand: set<Id>) {
    && Inv(s, hand) && c in hand && c in s.core.cmds
    && History(s.core, c) == [] && !s.core.cmds[c].keep && !CanNotify(CallOf(s.core, c))
  }

  /** After `execute`: `keep` exactly when the command is now parked. */
  ghost predicate Settled(t: State, c: Id, hand: set<Id>) {
    && c in t.core.cmds && c in t.core.live
    && if t.core.cmds[c].keep then Inv(t, hand - {c}) && c in ParkedSet(t.core, t.conns)
       else Inv(t, hand) && c !in ParkedSet(t.core, t.conns)
            && (MayStaySilent(KindOf(t.core, c)) || |History(t.core, c)| == 1)
            && !CanNotify(CallOf(t.core, c))
  }

  /** No removal of the same object is already waiting for its reply. */
  ghost predicate NoneInFlight(s: State, c: Id)
    requires c in s.core.cmds
  {
    forall k, d :: k in s.conns && d in s.conns[k].pending && d in s.core.cmds ==> !SameRemoval(s.core, c, d)
  }

  lemma HandIsNotParked(s: State, c: Id, hand: set<Id>)
    requires Inv(s, hand) && c in hand
    ensures c !in ParkedSet(s.core, s.conns) && IsLive(s.core, c)
  {
    HandIsLive(s.core, c, ParkedSet(s.core, s.conns), AttachedSet(s.core, s.conns), hand);
    assert CmdOk(s.core, ParkedSet(s.core, s.conns), AttachedSet(s.core, s.conns), hand, c);
  }

  lemma ExtendsKeepsCmd(a: Core, b: Core, c: Id)
    requires Extends(a, b) && c in a.cmds
    ensures c in b.cmds && b.cmds[c] == a.cmds[c] && CallOf(b, c) == CallOf(a, c)
  {
  }

  lemma DeliverSettles(s: State, c: Id, outcome: Outcome, hand: set<Id>)
    requires Ready(s, c, hand)
    ensures Settled(Deliver(s, c, outcome), c, hand)
  {
    hide Inv, Deliver, Extends;
    DeliverKeeps(s, c, outcome, hand);
    var t := Deliver(s, c, outcome);
    ExtendsKeepsCmd(s.core.(history := s.core.history[c := [outcome]]), t.core, c);
    HandIsNotParked(t, c, hand);
  }

  lemma SetCallReady(s: State, c: Id, call: Call, hand: set<Id>)
    requires Ready(s, c, hand) && !CanNotify(call)
    ensures Ready(s.(core := SetCall(s.core, c, call)), c, hand)
  {
    hide CoreInv, LinksOk, RefsOk;
    SetCallKeeps(s.core, c, call, ParkedSet(s.core, s.conns), AttachedSet(s.core, s.conns), hand);
    CoreStepKeeps(s, SetCall(s.core, c, call), hand, hand);
  }

  /** The connection with one more pending command, or the objects a pending removal needs. */
  lemma PendingAdded(a: Core, k: Id, conn: Conn, c: Id)
    requires ConnOk(a, k, conn) && PendingOk(a, k, conn, c)
    requires forall d :: d in conn.pending && d in a.cmds ==> !SameRemoval(a, c, d)
    ensures ConnOk(a, k, conn.(pending := conn.pending + {c}))
  {
    var conn' := conn.(pending := conn.pending + {c});
    forall d | d in conn'.pending ensures PendingOk(a, k, conn', d) {
      assert PendingOk(a, k, conn, d);
    }
    forall d, e | d in conn'.pending && e in conn'.pending && SameRemoval(a, d, e) ensures d == e {
      assert PendingOk(a, k, conn, d) && PendingOk(a, k, conn, e);
      assert SameRemoval(a, e, d);
    }
  }

  function WithPending(s: State, k: Id, c: Id): State
    requires k in s.conns && c in s.core.cmds
  {
    WithConn(s, k, s.conns[k].(pending := s.conns[k].pending + {c})).(core := Parked(s.core, c))
  }

  lemma ParkedLinks(a: Core, conns: map<Id, Conn>, k: Id, c: Id)
    requires LinksOk(a, conns) && k in conns && PendingOk(a, k, conns[k], c) && c !in ParkedSet(a, conns)
    requires forall d :: d in conns[k].pending && d in a.cmds ==> !SameRemoval(a, c, d)
    ensures var conns' := conns[k := conns[k].(pending := conns[k].pending + {c})];
            && LinksOk(a, conns')
            && ParkedSet(a, conns') == ParkedSet(a, conns) + {c}
            && AttachedSet(a, conns') == AttachedSet(a, conns)
  {
    assert ConnOk(a, k, conns[k]);
    hide ConnOk, PendingOk, LinksOk, ParkedSet, AttachedSet;
    PendingAdded(a, k, conns[k], c);
    UpdatedConnLinks(a, conns, k, conns[k].(pending := conns[k].pending + {c}));
    RemovedConnLinks(a, conns, k);
  }

  lemma ParkedSettles(s: State, c: Id, k: Id, hand: set<Id>)
    requires Ready(s, c, hand) && k in s.conns
    requires MayPark(KindOf(s.core, c)) && PendingOk(s.core, k, s.conns[k], c) && NoneInFlight(s, c)
    ensures Settled(WithPending(s, k, c), c, hand)
  {
    hide CoreInv, RefsOk, PendingOk, LinksOk, ParkedSet, AttachedSet;
    var conns' := s.conns[k := s.conns[k].(pending := s.conns[k].pending + {c})];
    var p, q := ParkedSet(s.core, s.conns), AttachedSet(s.core, s.conns);
    HandIsNotParked(s, c, hand);
    ParkedLinks(s.core, s.conns, k, c);
    ParkedKeeps(s.core, c, p, q, hand);
    GrowsKeepsLinks(s.core, Parked(s.core, c), conns');
    PendingKeepsRefs(s.conns, s.refs, k, s.conns[k].pending + {c});
  }

  lemma PendingKeepsRefs(conns: map<Id, Conn>, refs: map<nat, nat>, k: Id, pending: set<Id>)
    requires k in conns && RefsOk(conns, refs)
    ensures RefsOk(conns[k := conns[k].(pending := pending)], refs)
  {
    SameCountsKeepRefs(conns, refs, k, conns[k].(pending := pending));
  }

  lemma SameCountsKeepRefs(conns: map<Id, Conn>, refs: map<nat, nat>, k: Id, conn: Conn)
    requires k in conns && RefsOk(conns, refs)
    requires conn.dbus == conns[k].dbus && conn.refCount == conns[k].refCount
    requires conn.creates == conns[k].creates && conn.releases == conns[k].releases
    ensures RefsOk(conns[k := conn], refs)
  {
    var conns' := conns[k := conn];
    forall d | RefsOn(refs, d) > 0 ensures exists j :: j in conns' && conns'[j].dbus == d {
      var j :| j in conns && conns[j].dbus == d;
      assert j in conns' && conns'[j].dbus == d;
    }
  }

  lemma ParkSettles(s: State, c: Id, k: Id, answer: Answer, hand: set<Id>)
    requires Ready(s, c, hand) && k in s.conns
    requires MayPark(KindOf(s.core, c)) && PendingOk(s.core, k, s.conns[k], c) && NoneInFlight(s, c)
    ensures Settled(Park(s, c, k, answer), c, hand)
  {
    hide Settled, Ready, PendingOk, NoneInFlight, Deliver;
    if !answer.message || !answer.append || !answer.send {
      DeliverSettles(s, c, Outcome(NoMemory, None), hand);
    } else if !answer.notify {
      SetCallReady(s, c, Unarmed, hand);
      DeliverSettles(s.(core := SetCall(s.core, c, Unarmed)), c, Outcome(NoMemory, None), hand);
    } else if !answer.register {
      SetCallReady(s, c, CallCancelled, hand);
      DeliverSettles(s.(core := SetCall(s.core, c, CallCancelled)), c, Outcome(NoMemory, None), hand);
    } else {
      ParkedSettles(s, c, k, hand);
    }
  }

  lemma ParkIfConnectedSettles(s: State, c: Id, k: Id, answer: Answer, hand: set<Id>)
    requires Ready(s, c, hand) && MayPark(KindOf(s.core, c)) && NoneInFlight(s, c)
    requires k in s.conns ==> PendingOk(s.core, k, s.conns[k], c)
    ensures Settled(ParkIfConnected(s, c, k, answer), c, hand)
  {
    hide Settled, Ready, PendingOk, NoneInFlight, Deliver, Park;
    if Connected(s, k, answer) {
      ParkSettles(s, c, k, answer, hand);
    } else {
      DeliverSettles(s, c, Outcome(NotConnected, None), hand);
    }
  }

  lemma SilenceSettles(s: State, c: Id, hand: set<Id>)
    requires Ready(s, c, hand) && MayStaySilent(KindOf(s.core, c))
    ensures Settled(s, c, hand)
  {
    hide Inv;
    HandIsNotParked(s, c, hand);
  }

  /** An object in the sets of a cached connection is live, and its record names that connection. */
  lemma FoundObject(s: State, i: Id, hand: set<Id>)
    requires Inv(s, hand) && (SubscriptionExists(s, i) || ServiceExists(s, i))
    ensures i in s.core.objs && i in s.core.cmds && CreatesObject(KindOf(s.core, i)) && KindOf(s.core, i).conn in s.conns
    ensures SubscriptionExists(s, i) <==> i in s.conns[KindOf(s.core, i).conn].subs
    ensures ServiceExists(s, i) <==> i in s.conns[KindOf(s.core, i).conn].regs
  {
    AttachedMeansOwned(s.core, s.conns, i);
    assert i in AttachedSet(s.core, s.conns);
    assert CmdOk(s.core, ParkedSet(s.core, s.conns), AttachedSet(s.core, s.conns), hand, i);
    forall k | k in s.conns && (i in s.conns[k].subs || i in s.conns[k].regs) ensures k == KindOf(s.core, i).conn {
      assert ConnOk(s.core, k, s.conns[k]);
    }
  }

  lemma FoundKind(s: State, i: Id, hand: set<Id>)
    requires Inv(s, hand) && i in s.core.cmds
    ensures SubscriptionExists(s, i) ==> CreatesSubscription(KindOf(s.core, i))
    ensures ServiceExists(s, i) ==> KindOf(s.core, i).RegisterService?
  {
    forall k | k in s.conns
      ensures i in s.conns[k].subs ==> CreatesSubscription(KindOf(s.core, i))
      ensures i in s.conns[k].regs ==> KindOf(s.core, i).RegisterService?
    {
      assert ConnOk(s.core, k, s.conns[k]);
    }
  }

  lemma RemovalSettles(s: State, c: Id, answer: Answer, hand: set<Id>)
    requires Ready(s, c, hand) && NoneInFlight(s, c)
    requires KindOf(s.core, c).Unsubscribe? || KindOf(s.core, c).UnregisterService?
    ensures Settled(RemovalStep(s, c, answer), c, hand)
  {
    var kind := KindOf(s.core, c);
    var i := if kind.Unsubscribe? then kind.sub else kind.reg;
    var found := if kind.Unsubscribe? then SubscriptionExists(s, i) else ServiceExists(s, i);
    hide Inv, Settled, NoneInFlight, Deliver, ParkIfConnected;
    if found {
      FoundObject(s, i, hand);
      FoundKind(s, i, hand);
      hide Ready;
      ParkIfConnectedSettles(s, c, KindOf(s.core, i).conn, answer, hand);
    } else {
      DeliverSettles(s, c, Outcome(NotFound, None), hand);
    }
  }

  function RemovalStep(s: State, c: Id, answer: Answer): State
    requires c in s.core.cmds && (KindOf(s.core, c).Unsubscribe? || KindOf(s.core, c).UnregisterService?)
  {
    match KindOf(s.core, c)
    case Unsubscribe(i) => ExecuteRemoval(s, c, i, SubscriptionExists(s, i), answer)
    case UnregisterService(i) => ExecuteRemoval(s, c, i, ServiceExists(s, i), answer)
  }

  lemma SendOnlySettles(s: State, c: Id, k: Id, answer: Answer, hand: set<Id>)
    requires Ready(s, c, hand) && MayStaySilent(KindOf(s.core, c))
    ensures Settled(SendOnly(s, c, k, answer), c, hand)
  {
    hide Ready, Settled, Deliver;
    if !Connected(s, k, answer) {
      DeliverSettles(s, c, Outcome(NotConnected, None), hand);
    } else if !answer.message || !answer.append || !answer.send {
      DeliverSettles(s, c, Outcome(NoMemory, None), hand);
    } else {
      SilenceSettles(s, c, hand);
    }
  }

  /** An emitted signal needs a registration that still exists. */
  lemma EmitSettles(s: State, c: Id, service: Option<Id>, answer: Answer, hand: set<Id>)
    requires Ready(s, c, hand) && KindOf(s.core, c) == Emit(service)
    requires service.Some? ==> service.value in s.core.objs
    ensures Settled(EmitSignal(s, c, service, answer), c, hand)
  {
    if service.Some? {
      LiveObjectIsKnown(s, service.value, hand);
    }
    hide Ready, Settled, Deliver;
    match service
    case None => SilenceSettles(s, c, hand);
    case Some(i) =>
      DeliverSettles(s, c, Outcome(NoMemory, None), hand);
      DeliverSettles(s, c, Outcome(NotConnected, None), hand);
      DeliverSettles(s, c, Outcome(ConnSend, None), hand);
      DeliverSettles(s, c, Outcome(Ok, None), hand);
  }

  lemma LiveObjectIsKnown(s: State, i: Id, hand: set<Id>)
    requires Inv(s, hand) && i in s.core.objs
    ensures i in s.core.cmds && CreatesObject(KindOf(s.core, i))
  {
    assert CmdOk(s.core, ParkedSet(s.core, s.conns), AttachedSet(s.core, s.conns), hand, i);
  }

  lemma SparesReady(s: State, t: State, c: Id, hand: set<Id>)
    requires Ready(s, c, hand) && Inv(t, hand) && Spares(s.core, t.core, hand)
    ensures Ready(t, c, hand)
  {
    hide Inv;
    assert Spared(s.core, t.core, c);
  }

  // ----- cancelling by handle -----

  lemma PendingRemoved(a: Core, k: Id, conn: Conn, c: Id)
    requires ConnOk(a, k, conn)
    ensures ConnOk(a, k, conn.(pending := conn.pending - {c}))
  {
    var conn' := conn.(pending := conn.pending - {c});
    forall d | d in conn'.pending ensures PendingOk(a, k, conn', d) {
      assert PendingOk(a, k, conn, d);
    }
  }

  lemma UnparkedLinks(a: Core, conns: map<Id, Conn>, k: Id, c: Id)
    requires LinksOk(a, conns) && k in conns && c in conns[k].pending
    ensures var conns' := conns[k := conns[k].(pending := conns[k].pending - {c})];
            && LinksOk(a, conns')
            && c in ParkedSet(a, conns)
            && ParkedSet(a, conns') == ParkedSet(a, conns) - {c}
            && AttachedSet(a, conns') == AttachedSet(a, conns)
  {
    assert ConnOk(a, k, conns[k]);
    hide ConnOk, LinksOk, ParkedSet, AttachedSet;
    PendingRemoved(a, k, conns[k], c);
    UpdatedConnLinks(a, conns, k, conns[k].(pending := conns[k].pending - {c}));
    RemovedConnLinks(a, conns, k);
  }

  /** Cancel, delete and unregister one pending command. */
  function FinishPending(s: State, k: Id, c: Id): State {
    UnregisterPending(s.(core := Delete(CancelCommand(s.core, c), c)), k, c)
  }

  lemma FinishPendingKeeps(s: State, k: Id, c: Id, hand: set<Id>)
    requires Inv(s, hand) && k in s.conns && c in s.conns[k].pending
    ensures Inv(FinishPending(s, k, c), hand)
    ensures c in s.core.cmds && Finishes(s.core, FinishPending(s, k, c).core, {c})
  {
    hide CoreInv, LinksOk, RefsOk, ParkedSet, AttachedSet, Finishes, CancelCommand;
    var p, q := ParkedSet(s.core, s.conns), AttachedSet(s.core, s.conns);
    UnparkedLinks(s.core, s.conns, k, c);
    TakeParked(s.core, {c}, p, q, hand);
    FinishOneKeeps(s.core, c, p - {c}, q, hand + {c});
    assert hand + {c} - {c} == hand;
    var b := Delete(CancelCommand(s.core, c), c);
    FinishesGrowsKinds(s.core, b, {c});
    var conns' := s.conns[k := s.conns[k].(pending := s.conns[k].pending - {c})];
    GrowsKeepsLinks(s.core, b, conns');
    PendingKeepsRefs(s.conns, s.refs, k, s.conns[k].pending - {c});
  }

  lemma CancelByHandleKeeps(s: State, h: Uint32, hand: set<Id>)
    requires Inv(s, hand)
    ensures Inv(CancelByHandle(s, h).0, hand)
    ensures Spares(s.core, CancelByHandle(s, h).0.core, hand)
  {
    hide Inv, Finishes, Spares, CancelCommand, Delete;
    HandIsKnown(s, hand);
    if ConnsMatching(s, h) == {} {
      SparesItself(s.core, hand);
    } else {
      var k := Least(ConnsMatching(s, h));
      var c := Least(Matching(s, k, h));
      FinishPendingKeeps(s, k, c, hand);
      var t := FinishPending(s, k, c);
      assert c !in hand;
      FinishesSpares(s.core, t.core, {c}, hand, t.core.objs);
    }
  }

  // ----- every kind of command -----

  /** What the library relies on when a command executes: at most one removal of an object is in
      flight, and a signal is emitted through a registration that still exists. */
  ghost predicate ExecuteAllowed(s: State, c: Id)
    requires c in s.core.cmds
  {
    && NoneInFlight(s, c)
    && (KindOf(s.core, c).Emit? && KindOf(s.core, c).service.Some? ==> KindOf(s.core, c).service.value in s.core.objs)
  }

  lemma QuitKeeps(s: State, hand: set<Id>)
    requires Inv(s, hand)
    ensures Inv(s.(core := s.core.(quit := true)), hand)
  {
    var b := s.core.(quit := true);
    var p, q := ParkedSet(s.core, s.conns), AttachedSet(s.core, s.conns);
    forall c | c in b.cmds ensures CmdOk(b, p, q, hand, c) {
      assert CmdOk(s.core, p, q, hand, c);
    }
    hide CmdOk;
    CoreStepKeeps(s, b, hand, hand);
  }

  lemma ShutdownSettles(s: State, c: Id, answer: Answer, hand: set<Id>)
    requires Ready(s, c, hand) && KindOf(s.core, c).Shutdown? && CountsPositive(s)
    ensures Settled(Execute(s, c, answer), c, hand)
  {
    hide Inv, Settled, Deliver, ForceReleaseAll;
    ForceReleaseAllKeeps(s, hand);
    var t := ForceReleaseAll(s);
    QuitKeeps(t, hand);
    SparesReady(s, t, c, hand);
    DeliverSettles(t.(core := t.core.(quit := true)), c, Outcome(Ok, None), hand);
  }

  lemma OpenSettles(s: State, c: Id, answer: Answer, hand: set<Id>)
    requires Ready(s, c, hand) && KindOf(s.core, c).OpenConnection? && CountsPositive(s)
    ensures Settled(Execute(s, c, answer), c, hand)
  {
    hide Inv, Settled, Deliver, Create;
    var isPrivate := KindOf(s.core, c).isPrivate;
    CreateKeeps(s, isPrivate, answer.opening, hand);
    SparesReady(s, Create(s, isPrivate, answer.opening).0, c, hand);
    hide Ready;
    var r := Create(s, isPrivate, answer.opening);
    DeliverSettles(r.0, c, r.1, hand);
  }

  lemma CloseSettles(s: State, c: Id, answer: Answer, hand: set<Id>)
    requires Ready(s, c, hand) && KindOf(s.core, c).CloseConnection? && CountsPositive(s)
    ensures Settled(Execute(s, c, answer), c, hand)
  {
    hide Inv, Settled, Deliver, Release;
    var k := KindOf(s.core, c).conn;
    ReleaseKeeps(s, k, hand);
    SparesReady(s, Release(s, k), c, hand);
    DeliverSettles(Release(s, k), c, Outcome(Ok, None), hand);
  }

  lemma CancelSettles(s: State, c: Id, answer: Answer, hand: set<Id>)
    requires Ready(s, c, hand) && KindOf(s.core, c).Cancel? && CountsPositive(s)
    ensures Settled(Execute(s, c, answer), c, hand)
  {
    hide Inv, Settled, Deliver, CancelByHandle;
    var h := KindOf(s.core, c).target;
    CancelByHandleKeeps(s, h, hand);
    var r := CancelByHandle(s, h);
    SparesReady(s, r.0, c, hand);
    DeliverSettles(r.0, c, Outcome(r.1, None), hand);
  }

  /** A command that works on its own connection can be parked there. */
  lemma OwnConnectionIsPendingOk(s: State, c: Id, k: Id)
    requires c in s.core.cmds && Target(s.core, KindOf(s.core, c)) == Some(k)
    requires !KindOf(s.core, c).Unsubscribe? && !KindOf(s.core, c).UnregisterService?
    ensures k in s.conns ==> PendingOk(s.core, k, s.conns[k], c)
  {
  }

  lemma OwnConnectionSettles(s: State, c: Id, k: Id, answer: Answer, hand: set<Id>)
    requires Ready(s, c, hand) && NoneInFlight(s, c)
    requires MayPark(KindOf(s.core, c)) && Target(s.core, KindOf(s.core, c)) == Some(k)
    requires !KindOf(s.core, c).Unsubscribe? && !KindOf(s.core, c).UnregisterService?
    ensures Settled(ParkIfConnected(s, c, k, answer), c, hand)
    ensures k in s.conns ==> Settled(Park(s, c, k, answer), c, hand)
    ensures k !in s.conns ==> Settled(Fail(s, c, NotFound), c, hand)
  {
    hide Inv, Settled, Deliver, Park, NoneInFlight;
    OwnConnectionIsPendingOk(s, c, k);
    hide Ready;
    ParkIfConnectedSettles(s, c, k, answer, hand);
    if k in s.conns {
      ParkSettles(s, c, k, answer, hand);
    } else {
      DeliverSettles(s, c, Outcome(NotFound, None), hand);
    }
  }

  lemma ExecuteSettles(s: State, c: Id, answer: Answer, hand: set<Id>)
    requires c in s.core.cmds && Ready(s, c, hand) && CountsPositive(s) && ExecuteAllowed(s, c)
    ensures Settled(Execute(s, c, answer), c, hand)
  {
    hide Inv, Settled, Deliver, ParkIfConnected, Park, NoneInFlight, Create, Release, CancelByHandle, ForceReleaseAll,
      ExecuteRemoval, SendOnly, EmitSignal, CountsPositive, Ready;
    match KindOf(s.core, c)
    case OpenConnection(_) => OpenSettles(s, c, answer, hand);
    case CloseConnection(_) => CloseSettles(s, c, answer, hand);
    case Subscribe(k) => OwnConnectionSettles(s, c, k, answer, hand);
    case SubscribeOwnerChanged(k) => OwnConnectionSettles(s, c, k, answer, hand);
    case Unsubscribe(_) => RemovalSettles(s, c, answer, hand);
    case RegisterService(k) => OwnConnectionSettles(s, c, k, answer, hand);
    case UnregisterService(_) => RemovalSettles(s, c, answer, hand);
    case Invoke(k, noReply) =>
      if noReply {
        SendOnlySettles(s, c, k, answer, hand);
      } else {
        OwnConnectionSettles(s, c, k, answer, hand);
      }
    case NameHasOwner(k) => OwnConnectionSettles(s, c, k, answer, hand);
    case Emit(service) => EmitSettles(s, c, service, answer, hand);
    case Cancel(_) => CancelSettles(s, c, answer, hand);
    case ReturnReply(hasContext) =>
      DeliverSettles(s, c, Outcome(if hasContext then answer.status else BadArgs, None), hand);
    case FreeRequestContext => SilenceSettles(s, c, hand);
    case Shutdown => ShutdownSettles(s, c, answer, hand);
  }
}
