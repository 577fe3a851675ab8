/** A reply that can be used finishes its command; any other reply breaks the invariant. */
module Replies {
  import opened Commands
  import opened Wrappers
  import opened Connections
  import opened CoreInvariant
  import opened Invariant
  import opened Execution

  /** The replies the library is written for: an error or a method return, on a connection that
      is still up where the family looks at that. */
  predicate Usable(kind: Kind, reply: Reply, connected: bool) {
    (reply.ErrorReply? || reply.ReturnReply?) && (CreatesObject(kind) ==> connected)
  }

  /** The command is in hand, out of every pending set, and its reply has been stolen. */
  ghost predicate Answering(s: State, c: Id, k: Id) {
    && Inv(s, {c}) && c in s.core.cmds && k in s.conns
    && History(s.core, c) == [] && !CanNotify(CallOf(s.core, c))
    && MayPark(KindOf(s.core, c)) && PendingOk(s.core, k, s.conns[k], c)
    && (CreatesObject(KindOf(s.core, c)) ==> s.core.cmds[c].owns)
    && (forall d :: d in s.conns[k].pending && d in s.core.cmds ==> !SameRemoval(s.core, c, d))
  }

  ghost predicate Answered(t: State, c: Id) {
    && Inv(t, {c}) && c in t.core.cmds
    && |History(t.core, c)| == 1 && !CanNotify(CallOf(t.core, c))
  }

  lemma DeliverAnswers(s: State, c: Id, k: Id, outcome: Outcome)
    requires Answering(s, c, k)
    ensures Answered(Deliver(s, c, outcome), c)
  {
    hide Inv, Deliver, Extends, PendingOk;
    DeliverKeeps(s, c, outcome, {c});
    ExtendsKeepsCmd(s.core.(history := s.core.history[c := [outcome]]), Deliver(s, c, outcome).core, c);
  }

  // ----- handing the new object over to the connection -----

  lemma SubAdded(a: Core, k: Id, conn: Conn, c: Id)
    requires ConnOk(a, k, conn) && c in a.cmds && CreatesSubscription(KindOf(a, c)) && KindOf(a, c).conn == k
    ensures ConnOk(a, k, conn.(subs := conn.subs + {c}))
  {
    forall d | d in conn.pending ensures PendingOk(a, k, conn.(subs := conn.subs + {c}), d) {
      assert PendingOk(a, k, conn, d);
    }
  }

  lemma RegAdded(a: Core, k: Id, conn: Conn, c: Id)
    requires ConnOk(a, k, conn) && c in a.cmds && KindOf(a, c).RegisterService? && KindOf(a, c).conn == k
    ensures ConnOk(a, k, conn.(regs := conn.regs + {c}))
  {
    forall d | d in conn.pending ensures PendingOk(a, k, conn.(regs := conn.regs + {c}), d) {
      assert PendingOk(a, k, conn, d);
    }
  }

  lemma ObjectAddedLinks(a: Core, conns: map<Id, Conn>, k: Id, c: Id)
    requires LinksOk(a, conns) && k in conns
    requires c in a.cmds && CreatesObject(KindOf(a, c)) && KindOf(a, c).conn == k
    ensures var conns' := conns[k := WithObject(conns[k], KindOf(a, c), c)];
            && LinksOk(a, conns')
            && ParkedSet(a, conns') == ParkedSet(a, conns)
            && AttachedSet(a, conns') == AttachedSet(a, conns) + {c}
  {
    assert ConnOk(a, k, conns[k]);
    hide ConnOk, LinksOk, ParkedSet, AttachedSet;
    var conn := WithObject(conns[k], KindOf(a, c), c);
    if KindOf(a, c).RegisterService? {
      RegAdded(a, k, conns[k], c);
    } else {
      SubAdded(a, k, conns[k], c);
    }
    UpdatedConnLinks(a, conns, k, conn);
    RemovedConnLinks(a, conns, k);
  }

  lemma HandOverAnswers(s: State, c: Id, k: Id)
    requires Answering(s, c, k) && CreatesObject(KindOf(s.core, c))
    ensures Answered(HandOver(s, c, k), c)
  {
    hide CoreInv, LinksOk, RefsOk, ParkedSet, AttachedSet, PendingOk, Extends, Complete;
    var p, q := ParkedSet(s.core, s.conns), AttachedSet(s.core, s.conns);
    var conn := WithObject(s.conns[k], KindOf(s.core, c), c);
    var conns' := s.conns[k := conn];
    var o := Outcome(Ok, Some(c));
    TargetOfCreator(s, c, k);
    CompleteKeeps(s.core, c, o, p, q, {c});
    var b := Complete(s.core, c, o);
    ExtendsKeepsCmd(s.core.(history := s.core.history[c := [o]]), b, c);
    DisownedKeeps(b, c, p, q, {c});
    ObjectAddedLinks(s.core, s.conns, k, c);
    ExtendsGrowsKinds(s.core, b, c, o);
    GrowsKeepsLinks(s.core, Disowned(b, c), conns');
    SameCountsKeepRefs(s.conns, s.refs, k, conn);
  }

  lemma TargetOfCreator(s: State, c: Id, k: Id)
    requires Answering(s, c, k) && CreatesObject(KindOf(s.core, c))
    ensures KindOf(s.core, c).conn == k
  {
  }

  lemma ExtendsGrowsKinds(a: Core, b: Core, c: Id, outcome: Outcome)
    requires Extends(a.(history := a.history[c := [outcome]]), b) && c in b.cmds
    ensures KindsGrow(a, Disowned(b, c)) && KindsGrow(a, b)
  {
  }

  // ----- taking an object away from its connection -----

  lemma ObjectRemovedConn(a: Core, k: Id, conn: Conn, c: Id, i: Id)
    requires ConnOk(a, k, conn) && PendingOk(a, k, conn, c)
    requires KindOf(a, c) == Unsubscribe(i) || KindOf(a, c) == UnregisterService(i)
    requires forall d :: d in conn.pending && d in a.cmds ==> !SameRemoval(a, c, d)
    ensures ConnOk(a, k, WithoutObject(conn, KindOf(a, c), i))
  {
    var conn' := WithoutObject(conn, KindOf(a, c), i);
    forall d | d in conn'.pending ensures PendingOk(a, k, conn', d) {
      assert PendingOk(a, k, conn, d);
    }
  }

  lemma ObjectRemovedLinks(a: Core, conns: map<Id, Conn>, k: Id, c: Id, i: Id)
    requires LinksOk(a, conns) && k in conns && PendingOk(a, k, conns[k], c)
    requires KindOf(a, c) == Unsubscribe(i) || KindOf(a, c) == UnregisterService(i)
    requires forall d :: d in conns[k].pending && d in a.cmds ==> !SameRemoval(a, c, d)
    ensures var conns' := conns[k := WithoutObject(conns[k], KindOf(a, c), i)];
            && LinksOk(a, conns')
            && ParkedSet(a, conns') == ParkedSet(a, conns)
            && AttachedSet(a, conns') == AttachedSet(a, conns) - {i}
            && i in AttachedSet(a, conns)
  {
    assert ConnOk(a, k, conns[k]);
    ObjectInOneSet(a, k, conns[k], KindOf(a, c), i);
    hide ConnOk, LinksOk, ParkedSet, AttachedSet;
    ObjectRemovedConn(a, k, conns[k], c, i);
    UpdatedConnLinks(a, conns, k, WithoutObject(conns[k], KindOf(a, c), i));
    RemovedConnLinks(a, conns, k);
  }

  /** No identity is both a subscription and a registration. */
  lemma ObjectInOneSet(a: Core, k: Id, conn: Conn, kind: Kind, i: Id)
    requires ConnOk(a, k, conn)
    requires (kind == Unsubscribe(i) && i in conn.subs) || (kind == UnregisterService(i) && i in conn.regs)
    ensures var conn' := WithoutObject(conn, kind, i);
            conn'.subs + conn'.regs == conn.subs + conn.regs - {i}
  {
  }

  lemma TakeAwayKeeps(s: State, c: Id, k: Id, i: Id)
    requires Answering(s, c, k)
    requires KindOf(s.core, c) == Unsubscribe(i) || KindOf(s.core, c) == UnregisterService(i)
    ensures var t := WithConn(s, k, WithoutObject(s.conns[k], KindOf(s.core, c), i));
            Inv(t.(core := t.core.(objs := t.core.objs - {i})), {c})
  {
    hide CoreInv, LinksOk, RefsOk, ParkedSet, AttachedSet, PendingOk;
    var p, q := ParkedSet(s.core, s.conns), AttachedSet(s.core, s.conns);
    var conn := WithoutObject(s.conns[k], KindOf(s.core, c), i);
    ObjectRemovedLinks(s.core, s.conns, k, c, i);
    DetachedKeeps(s.core, {i}, p, q, {c});
    GrowsKeepsLinks(s.core, s.core.(objs := s.core.objs - {i}), s.conns[k := conn]);
    SameCountsKeepRefs(s.conns, s.refs, k, conn);
  }

  lemma TakeAwayAnswers(s: State, c: Id, k: Id, i: Id)
    requires Answering(s, c, k)
    requires KindOf(s.core, c) == Unsubscribe(i) || KindOf(s.core, c) == UnregisterService(i)
    ensures Answered(TakeAway(s, c, k, i), c)
  {
    hide Inv, Deliver, Extends, PendingOk;
    TakeAwayKeeps(s, c, k, i);
    var t := WithConn(s, k, WithoutObject(s.conns[k], KindOf(s.core, c), i));
    var u := t.(core := t.core.(objs := t.core.objs - {i}));
    var o := Outcome(Ok, None);
    assert CallOf(u.core, c) == CallOf(s.core, c) && History(u.core, c) == [];
    DeliverKeeps(u, c, o, {c});
    ExtendsKeepsCmd(u.core.(history := u.core.history[c := [o]]), Deliver(u, c, o).core, c);
  }

  // ----- what each family does -----

  lemma PendingObject(s: State, c: Id, k: Id)
    requires Answering(s, c, k)
    ensures Target(s.core, KindOf(s.core, c)) == Some(k)
    ensures KindOf(s.core, c).Unsubscribe? ==> KindOf(s.core, c).sub in s.conns[k].subs
    ensures KindOf(s.core, c).UnregisterService? ==> KindOf(s.core, c).reg in s.conns[k].regs
  {
  }

  lemma SubscriptionReplyAnswers(s: State, c: Id, k: Id, reply: Reply)
    requires c in s.core.cmds && k in s.conns && MayPark(KindOf(s.core, c)) && Answering(s, c, k)
    requires (reply.ErrorReply? || reply.ReturnReply?) && CreatesSubscription(KindOf(s.core, c))
    ensures Answered(SubscriptionReply(s, c, k, reply), c)
  {
    hide Answering, Answered, Deliver, HandOver;
    DeliverAnswers(s, c, k, Outcome(DBusError, None));
    DeliverAnswers(s, c, k, Outcome(NoMemory, None));
    HandOverAnswers(s, c, k);
  }

  lemma RegistrationReplyAnswers(s: State, c: Id, k: Id, reply: Reply)
    requires c in s.core.cmds && k in s.conns && MayPark(KindOf(s.core, c)) && Answering(s, c, k)
    requires (reply.ErrorReply? || reply.ReturnReply?) && KindOf(s.core, c).RegisterService?
    ensures Answered(RegistrationReply(s, c, k, reply), c)
  {
    hide Answering, Answered, Deliver, HandOver;
    DeliverAnswers(s, c, k, Outcome(DBusError, None));
    DeliverAnswers(s, c, k, Outcome(NoMemory, None));
    HandOverAnswers(s, c, k);
  }

  lemma RemovalReplyAnswers(s: State, c: Id, k: Id, reply: Reply, i: Id)
    requires Answering(s, c, k) && (reply.ErrorReply? || reply.ReturnReply?)
    ensures KindOf(s.core, c) == Unsubscribe(i) ==> Answered(UnsubscribeReply(s, c, k, i, reply), c)
    ensures KindOf(s.core, c) == UnregisterService(i) ==> Answered(UnregisterReply(s, c, k, i, reply), c)
  {
    PendingObject(s, c, k);
    assert k in s.conns;
    var kind := KindOf(s.core, c);
    hide Answering, Answered, Deliver, TakeAway;
    DeliverAnswers(s, c, k, Outcome(DBusError, None));
    if kind == Unsubscribe(i) || kind == UnregisterService(i) {
      TakeAwayAnswers(s, c, k, i);
    }
  }

  lemma ResultReplyAnswers(s: State, c: Id, k: Id, reply: Reply)
    requires Answering(s, c, k) && (reply.ErrorReply? || reply.ReturnReply?)
    ensures Answered(ResultReply(s, c, reply), c)
  {
    hide Answering, Answered, Deliver;
    DeliverAnswers(s, c, k, Outcome(DBusError, None));
    DeliverAnswers(s, c, k, Outcome(Ok, None));
  }

  lemma ReplyActionAnswers(s: State, c: Id, k: Id, reply: Reply)
    requires c in s.core.cmds && k in s.conns && MayPark(KindOf(s.core, c)) && Answering(s, c, k)
    requires reply.ErrorReply? || reply.ReturnReply?
    ensures Answered(ReplyAction(s, c, k, reply), c)
  {
    hide Answering, Answered, SubscriptionReply, RegistrationReply, UnsubscribeReply, UnregisterReply, ResultReply;
    match KindOf(s.core, c)
    case Unsubscribe(i) => RemovalReplyAnswers(s, c, k, reply, i);
    case UnregisterService(i) => RemovalReplyAnswers(s, c, k, reply, i);
    case RegisterService(_) => RegistrationReplyAnswers(s, c, k, reply);
    case Invoke(_, _) => ResultReplyAnswers(s, c, k, reply);
    case NameHasOwner(_) => ResultReplyAnswers(s, c, k, reply);
    case _ => SubscriptionReplyAnswers(s, c, k, reply);
  }

  // ----- a whole notification -----

  function Unparked(s: State, k: Id, c: Id): State
    requires k in s.conns
  {
    WithConn(s, k, s.conns[k].(pending := s.conns[k].pending - {c}))
  }

  lemma UnregisterFirstConn(s: State, k: Id, c: Id, conn: Conn)
    requires k in s.conns && conn.pending == s.conns[k].pending
    ensures WithConn(WithConn(s, k, conn), k, conn.(pending := conn.pending - {c}))
            == WithConn(Unparked(s, k, c), k, conn.(pending := conn.pending - {c}))
  {
    assert s.conns[k := conn][k := conn.(pending := conn.pending - {c})]
           == Unparked(s, k, c).conns[k := conn.(pending := conn.pending - {c})];
  }

  lemma HandOverUnregisterFirst(s: State, c: Id, k: Id)
    requires c in s.core.cmds && k in s.conns
    ensures k in HandOver(s, c, k).conns
    ensures Unparked(HandOver(s, c, k), k, c) == HandOver(Unparked(s, k, c), c, k)
  {
    hide Complete;
    UnregisterFirstConn(s, k, c, WithObject(s.conns[k], KindOf(s.core, c), c));
  }

  lemma TakeAwayUnregisterFirst(s: State, c: Id, k: Id, i: Id)
    requires c in s.core.cmds && k in s.conns
    ensures k in TakeAway(s, c, k, i).conns
    ensures Unparked(TakeAway(s, c, k, i), k, c) == TakeAway(Unparked(s, k, c), c, k, i)
  {
    hide Complete;
    UnregisterFirstConn(s, k, c, WithoutObject(s.conns[k], KindOf(s.core, c), i));
  }

  lemma FailUnregisterFirst(s: State, c: Id, k: Id, code: Code)
    requires k in s.conns
    ensures Fail(s, c, code).conns == s.conns
    ensures Unparked(Fail(s, c, code), k, c) == Fail(Unparked(s, k, c), c, code)
  {
    hide Complete;
  }

  lemma CreatorUnregisterFirst(s: State, c: Id, k: Id, reply: Reply)
    requires c in s.core.cmds && k in s.conns
    ensures var t := SubscriptionReply(s, c, k, reply);
            k in t.conns && Unparked(t, k, c) == SubscriptionReply(Unparked(s, k, c), c, k, reply)
    ensures var t := RegistrationReply(s, c, k, reply);
            k in t.conns && Unparked(t, k, c) == RegistrationReply(Unparked(s, k, c), c, k, reply)
  {
    hide HandOver, Fail;
    FailUnregisterFirst(s, c, k, DBusError);
    FailUnregisterFirst(s, c, k, NoMemory);
    HandOverUnregisterFirst(s, c, k);
  }

  lemma RemovalUnregisterFirst(s: State, c: Id, k: Id, i: Id, reply: Reply)
    requires c in s.core.cmds && k in s.conns
    ensures var t := UnsubscribeReply(s, c, k, i, reply);
            k in t.conns && Unparked(t, k, c) == UnsubscribeReply(Unparked(s, k, c), c, k, i, reply)
    ensures var t := UnregisterReply(s, c, k, i, reply);
            k in t.conns && Unparked(t, k, c) == UnregisterReply(Unparked(s, k, c), c, k, i, reply)
  {
    hide TakeAway, Fail;
    FailUnregisterFirst(s, c, k, DBusError);
    FailUnregisterFirst(s, c, k, BadArgs);
    TakeAwayUnregisterFirst(s, c, k, i);
  }

  lemma ResultUnregisterFirst(s: State, c: Id, k: Id, reply: Reply)
    requires k in s.conns
    ensures var t := ResultReply(s, c, reply);
            k in t.conns && Unparked(t, k, c) == ResultReply(Unparked(s, k, c), c, reply)
  {
    hide Fail;
    FailUnregisterFirst(s, c, k, DBusError);
    FailUnregisterFirst(s, c, k, Ok);
  }

  lemma UnparkedCore(s: State, k: Id, c: Id)
    requires k in s.conns
    ensures Unparked(s, k, c).core == s.core
  {
  }

  /** Unregistering the command first makes no difference to what its reply does. */
  lemma UnregisterFirst(s: State, c: Id, k: Id, reply: Reply)
    requires c in s.core.cmds && k in s.conns
    ensures k in ReplyAction(s, c, k, reply).conns
    ensures Unparked(s, k, c).core == s.core
    ensures Unparked(ReplyAction(s, c, k, reply), k, c) == ReplyAction(Unparked(s, k, c), c, k, reply)
  {
    hide Unparked, SubscriptionReply, RegistrationReply, UnsubscribeReply, UnregisterReply, ResultReply;
    UnparkedCore(s, k, c);
    CreatorUnregisterFirst(s, c, k, reply);
    ResultUnregisterFirst(s, c, k, reply);
    match KindOf(s.core, c)
    case Unsubscribe(i) => RemovalUnregisterFirst(s, c, k, i, reply);
    case UnregisterService(i) => RemovalUnregisterFirst(s, c, k, i, reply);
    case _ =>
  }

  /** The command leaves the pending set and is in hand, its reply stolen. */
  lemma UnparkedKeeps(s: State, c: Id, k: Id)
    requires Inv(s, {}) && k in s.conns && c in s.conns[k].pending
    ensures Inv(Unparked(s.(core := SetCall(s.core, c, Stolen)), k, c), {c})
    ensures c in s.core.cmds && History(s.core, c) == [] && MayPark(KindOf(s.core, c))
    ensures CreatesObject(KindOf(s.core, c)) ==> s.core.cmds[c].owns
  {
    hide CoreInv, LinksOk, RefsOk, ParkedSet, AttachedSet;
    var p, q := ParkedSet(s.core, s.conns), AttachedSet(s.core, s.conns);
    UnparkedLinks(s.core, s.conns, k, c);
    TakeParked(s.core, {c}, p, q, {});
    assert {} + {c} == {c};
    SetCallKeeps(s.core, c, Stolen, p - {c}, q, {c});
    var b := SetCall(s.core, c, Stolen);
    GrowsKeepsLinks(s.core, b, s.conns[k := s.conns[k].(pending := s.conns[k].pending - {c})]);
    PendingKeepsRefs(s.conns, s.refs, k, s.conns[k].pending - {c});
    CreatorOwns(s.core, c, p, q);
  }

  lemma SetCallKeepsPending(a: Core, c: Id, call: Call, k: Id, conn: Conn)
    requires PendingOk(a, k, conn, c)
    ensures PendingOk(SetCall(a, c, call), k, conn, c)
  {
  }

  lemma AnsweringBegins(s: State, c: Id, k: Id)
    requires Inv(s, {}) && k in s.conns && c in s.conns[k].pending
    ensures c in s.core.cmds && IsLive(s.core, c) && !NotifyReadsFreed(s.core, c)
    ensures Target(s.core, KindOf(s.core, c)) == Some(k)
    ensures Answering(Unparked(s.(core := SetCall(s.core, c, Stolen)), k, c), c, k)
  {
    hide Inv, PendingOk;
    PendingFacts(s, c, k);
    UnparkedKeeps(s, c, k);
    SetCallKeepsPending(s.core, c, Stolen, k, s.conns[k].(pending := s.conns[k].pending - {c}));
  }

  lemma CreatorOwns(a: Core, c: Id, parked: set<Id>, attached: set<Id>)
    requires CoreInv(a, parked, attached, {}) && c in parked
    ensures c in a.cmds && (CreatesObject(KindOf(a, c)) ==> a.cmds[c].owns)
  {
    assert CmdOk(a, parked, attached, {}, c);
  }

  lemma PendingFacts(s: State, c: Id, k: Id)
    requires Inv(s, {}) && k in s.conns && c in s.conns[k].pending
    ensures c in s.core.cmds && IsLive(s.core, c) && !NotifyReadsFreed(s.core, c)
    ensures Target(s.core, KindOf(s.core, c)) == Some(k)
    ensures PendingOk(s.core, k, s.conns[k].(pending := s.conns[k].pending - {c}), c)
    ensures forall d :: d in s.conns[k].pending - {c} && d in s.core.cmds ==> !SameRemoval(s.core, c, d)
  {
    assert ConnOk(s.core, k, s.conns[k]);
    assert PendingOk(s.core, k, s.conns[k], c);
    var p, q := ParkedSet(s.core, s.conns), AttachedSet(s.core, s.conns);
    assert c in p;
    assert CmdOk(s.core, p, q, {}, c);
    var kind := KindOf(s.core, c);
    if kind.Unsubscribe? {
      assert SubscriptionExists(s, kind.sub);
      FoundObject(s, kind.sub, {});
    } else if kind.UnregisterService? {
      assert ServiceExists(s, kind.reg);
      FoundObject(s, kind.reg, {});
    }
  }

  lemma UsableReplyKeeps(s: State, c: Id, k: Id, reply: Reply, connected: bool)
    requires Inv(s, {}) && k in s.conns && c in s.conns[k].pending && c in s.core.cmds
    requires Usable(KindOf(s.core, c), reply, connected)
    ensures Inv(Notify(s, c, reply, connected), {})
  {
    hide Inv, Answering, ReplyAction, PendingOk, Deliver, Delete;
    AnsweringBegins(s, c, k);
    var u := s.(core := SetCall(s.core, c, Stolen));
    var v := Unparked(u, k, c);
    UnregisterFirst(u, c, k, reply);
    AnsweringKind(v, c, k);
    ReplyActionAnswers(v, c, k, reply);
    DisposeKeeps(ReplyAction(v, c, k, reply), c, {c});
    assert {c} - {c} == {};
  }

  lemma AnsweringKind(s: State, c: Id, k: Id)
    requires Answering(s, c, k)
    ensures c in s.core.cmds && k in s.conns && MayPark(KindOf(s.core, c))
  {
  }
}
