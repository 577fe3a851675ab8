/** What a reply makes of a pending command: the client is told of success exactly when the object
    it asked for now exists, or the object it gave up is gone. */
module Outcomes {
  import opened Commands
  import opened Wrappers
  import opened Connections
  import opened CoreInvariant
  import opened Invariant
  import opened Progress
  import opened Replies
  import opened Preconditions

  /** The outcome each family owes its client for a reply it can use. */
  function Owed(kind: Kind, c: Id, reply: Reply): Outcome
    requires reply.ErrorReply? || reply.ReturnReply?
  {
    if reply.ErrorReply? then Outcome(DBusError, None)
    else if CreatesSubscription(kind) then
      (if reply.stored then Outcome(Ok, Some(c)) else Outcome(NoMemory, None))
    else if kind.RegisterService? then
      (if reply.usable && reply.owner && reply.stored then Outcome(Ok, Some(c))
       else Outcome(if reply.usable && !reply.owner then DBusError else NoMemory, None))
    else Outcome(Ok, None)
  }

  lemma {:induction false} SubmitAllKeepsHistory(a: Core, submissions: seq<Submission>)
    ensures SubmitAll(a, submissions).history == a.history
    decreases |submissions|
  {
    if submissions != [] {
      SubmitAllKeepsHistory(Submit(Build(a, submissions[0].request), a.nextId, submissions[0].wrote), submissions[1..]);
    }
  }

  lemma DeliveredHistory(s: State, c: Id, outcome: Outcome)
    requires IsLive(s.core, c)
    ensures History(Deliver(s, c, outcome).core, c) == History(s.core, c) + [outcome]
    ensures Deliver(s, c, outcome).conns == s.conns
  {
    SubmitAllKeepsHistory(s.core.(history := s.core.history[c := History(s.core, c) + [outcome]]), CallbackOf(s.core.cmds[c].request));
  }

  /** The connection a usable reply leaves behind, but for the pending set. */
  function Changed(conn: Conn, kind: Kind, c: Id, outcome: Outcome): Conn {
    if !outcome.code.Ok? then conn
    else
      match kind
      case Unsubscribe(i) => WithoutObject(conn, kind, i)
      case UnregisterService(i) => WithoutObject(conn, kind, i)
      case _ => if CreatesObject(kind) then WithObject(conn, kind, c) else conn
  }

  lemma HandOverDelivers(s: State, c: Id, k: Id)
    requires k in s.conns && c in s.core.cmds && IsLive(s.core, c)
    ensures History(HandOver(s, c, k).core, c) == History(s.core, c) + [Outcome(Ok, Some(c))]
    ensures HandOver(s, c, k).conns == s.conns[k := WithObject(s.conns[k], KindOf(s.core, c), c)]
  {
    var t := WithConn(s, k, WithObject(s.conns[k], KindOf(s.core, c), c));
    hide Deliver;
    DeliveredHistory(t, c, Outcome(Ok, Some(c)));
  }

  lemma TakeAwayDelivers(s: State, c: Id, k: Id, i: Id)
    requires k in s.conns && c in s.core.cmds && IsLive(s.core, c)
    ensures History(TakeAway(s, c, k, i).core, c) == History(s.core, c) + [Outcome(Ok, None)]
    ensures TakeAway(s, c, k, i).conns == s.conns[k := WithoutObject(s.conns[k], KindOf(s.core, c), i)]
  {
    var t := WithConn(s, k, WithoutObject(s.conns[k], KindOf(s.core, c), i));
    hide Deliver;
    DeliveredHistory(t.(core := t.core.(objs := t.core.objs - {i})), c, Outcome(Ok, None));
  }

  /** A pending removal still finds its object where it looks for it. */
  ghost predicate FindsObject(s: State, c: Id, k: Id)
    requires c in s.core.cmds && k in s.conns
  {
    && (KindOf(s.core, c).Unsubscribe? ==> KindOf(s.core, c).sub in s.conns[k].subs)
    && (KindOf(s.core, c).UnregisterService? ==> KindOf(s.core, c).reg in s.conns[k].regs)
  }

  lemma ReplyDelivers(s: State, c: Id, k: Id, reply: Reply)
    requires k in s.conns && IsLive(s.core, c) && FindsObject(s, c, k) && MayPark(KindOf(s.core, c))
    requires reply.ErrorReply? || reply.ReturnReply?
    ensures var owed := Owed(KindOf(s.core, c), c, reply);
            && History(ReplyAction(s, c, k, reply).core, c) == History(s.core, c) + [owed]
            && ReplyAction(s, c, k, reply).conns == s.conns[k := Changed(s.conns[k], KindOf(s.core, c), c, owed)]
  {
    hide Deliver, HandOver, TakeAway;
    assert s.conns[k := s.conns[k]] == s.conns;
    DeliveredHistory(s, c, Outcome(DBusError, None));
    DeliveredHistory(s, c, Outcome(NoMemory, None));
    DeliveredHistory(s, c, Outcome(Ok, None));
    HandOverDelivers(s, c, k);
    match KindOf(s.core, c)
    case Unsubscribe(i) => TakeAwayDelivers(s, c, k, i);
    case UnregisterService(i) => TakeAwayDelivers(s, c, k, i);
    case _ =>
  }

  lemma NotifyReadsReply(s: State, c: Id, k: Id, reply: Reply, connected: bool)
    requires IsLive(s.core, c) && !NotifyReadsFreed(s.core, c) && Target(s.core, KindOf(s.core, c)) == Some(k) && k in s.conns
    requires Usable(KindOf(s.core, c), reply, connected)
    ensures Notify(s, c, reply, connected)
            == Dispose(UnregisterPending(ReplyAction(s.(core := SetCall(s.core, c, Stolen)), c, k, reply), k, c), c)
  {
    hide ReplyAction, NotifyReadsFreed, Target, Dispose;
  }

  /** The command has been completed with `owed`, deleted, and taken out of the pending set of `k`;
      of the connections only `k` has changed, as the outcome says. */
  ghost predicate AnsweredWith(s: State, t: State, c: Id, k: Id, owed: Outcome)
    requires c in s.core.cmds && k in s.conns
  {
    && c in t.core.cmds && KindOf(t.core, c) == KindOf(s.core, c) && c !in t.core.live
    && History(t.core, c) == [owed]
    && t.conns == s.conns[k := Changed(s.conns[k], KindOf(s.core, c), c, owed).(pending := s.conns[k].pending - {c})]
  }

  lemma ThenRemoved(s: State, c: Id, k: Id)
    requires k in s.conns && c in s.core.cmds
    ensures var t := Dispose(UnregisterPending(s, k, c), c);
            && c in t.core.cmds && KindOf(t.core, c) == KindOf(s.core, c) && c !in t.core.live
            && History(t.core, c) == History(s.core, c)
            && t.conns == s.conns[k := s.conns[k].(pending := s.conns[k].pending - {c})]
  {
  }

  lemma SteadyKeepsKind(a: Core, b: Core, c: Id)
    requires Steady(a, b) && c in a.cmds && c < a.nextId
    ensures c in b.cmds && KindOf(b, c) == KindOf(a, c)
  {
    assert CmdProgress(a, b, c);
  }

  lemma ReplacedTwice(conns: map<Id, Conn>, k: Id, changed: Conn, c: Id)
    requires k in conns && changed.pending == conns[k].pending
    ensures conns[k := changed][k := changed.(pending := changed.pending - {c})]
            == conns[k := changed.(pending := conns[k].pending - {c})]
  {
  }

  /** Answering a pending command delivers the outcome its family owes, takes the command out of the
      pending set, and changes that connection accordingly and no other. */
  lemma ReplyIsAnswered(s: State, c: Id, k: Id, reply: Reply, connected: bool)
    requires Inv(s, {}) && k in s.conns && c in s.conns[k].pending && c in s.core.cmds
    requires Usable(KindOf(s.core, c), reply, connected)
    ensures AnsweredWith(s, Notify(s, c, reply, connected), c, k, Owed(KindOf(s.core, c), c, reply))
  {
    hide Inv, ReplyAction, NotifyReadsFreed, Target, Owed, Notify, Dispose, UnregisterPending, Changed, Steady;
    ParkedFacts(s, c, k);
    PendingIsFound(s, c, k);
    var u := s.(core := SetCall(s.core, c, Stolen));
    NotifyReadsReply(s, c, k, reply, connected);
    ReplyDelivers(u, c, k, reply);
    var v := ReplyAction(u, c, k, reply);
    ReplyActionSteady(u, c, k, reply);
    SteadyKeepsKind(u.core, v.core, c);
    var kind, owed := KindOf(s.core, c), Owed(KindOf(s.core, c), c, reply);
    ThenRemoved(v, c, k);
    assert [] + [owed] == [owed];
    ChangedKeepsPending(s.conns[k], kind, c, owed);
    ReplacedTwice(s.conns, k, Changed(s.conns[k], kind, c, owed), c);
  }

  lemma PendingIsFound(s: State, c: Id, k: Id)
    requires Inv(s, {}) && k in s.conns && c in s.conns[k].pending && c in s.core.cmds
    ensures FindsObject(s, c, k)
  {
    assert ConnOk(s.core, k, s.conns[k]);
    assert PendingOk(s.core, k, s.conns[k], c);
  }

  lemma ChangedKeepsPending(conn: Conn, kind: Kind, c: Id, outcome: Outcome)
    ensures Changed(conn, kind, c, outcome).pending == conn.pending
  {
  }

  // ----- success is reported exactly when it happened -----

  /** The set of the connection that objects of this kind belong in. */
  function SetFor(conn: Conn, kind: Kind): set<Id> {
    if kind.RegisterService? || kind.UnregisterService? then conn.regs else conn.subs
  }

  /** Before its reply a created object is in no connection. */
  lemma NotYetAttached(s: State, c: Id, k: Id)
    requires Inv(s, {}) && k in s.conns && c in s.conns[k].pending && c in s.core.cmds && CreatesObject(KindOf(s.core, c))
    ensures c !in s.conns[k].subs && c !in s.conns[k].regs && KindOf(s.core, c).conn == k
  {
    ParkedFacts(s, c, k);
    AttachedMeansOwned(s.core, s.conns, c);
    assert CmdOk(s.core, ParkedSet(s.core, s.conns), AttachedSet(s.core, s.conns), {}, c);
  }

  /** The object of a deleted command exists exactly when its connection has it. */
  lemma AttachedIffInSets(t: State, i: Id)
    requires Inv(t, {}) && i in t.core.cmds && CreatesObject(KindOf(t.core, i)) && KindOf(t.core, i).conn in t.conns
    requires i !in t.core.live
    ensures var conn := t.conns[KindOf(t.core, i).conn]; i in t.core.objs <==> i in conn.subs || i in conn.regs
  {
    assert CmdOk(t.core, ParkedSet(t.core, t.conns), AttachedSet(t.core, t.conns), {}, i);
  }

  lemma CreatedIffOk(s: State, t: State, c: Id, k: Id, owed: Outcome)
    requires c in s.core.cmds && k in s.conns && AnsweredWith(s, t, c, k, owed) && Inv(t, {})
    requires CreatesObject(KindOf(s.core, c)) && KindOf(s.core, c).conn == k
    requires c !in s.conns[k].subs && c !in s.conns[k].regs
    ensures owed.code.Ok? <==> c in t.core.objs
    ensures k in t.conns && (owed.code.Ok? ==> c in SetFor(t.conns[k], KindOf(s.core, c)))
  {
    AttachedIffInSets(t, c);
    hide Inv;
  }

  lemma OwedHandle(kind: Kind, c: Id, reply: Reply)
    requires reply.ErrorReply? || reply.ReturnReply?
    ensures CreatesObject(kind) ==> Owed(kind, c, reply).handle == if Owed(kind, c, reply).code.Ok? then Some(c) else None
  {
  }

  /** The client of a subscription or registration is told of success, and given the handle, exactly
      when the object now exists, in the set of the connection it asked for; otherwise it is given
      no handle and the object has been freed. */
  lemma CreationIsReported(s: State, c: Id, k: Id, reply: Reply, connected: bool)
    requires Inv(s, {}) && k in s.conns && c in s.conns[k].pending && c in s.core.cmds
    requires Usable(KindOf(s.core, c), reply, connected) && CreatesObject(KindOf(s.core, c))
    ensures exists owed :: AnsweredWith(s, Notify(s, c, reply, connected), c, k, owed)
                           && (owed.code.Ok? <==> c in Notify(s, c, reply, connected).core.objs)
                           && owed.handle == if owed.code.Ok? then Some(c) else None
    ensures k in Notify(s, c, reply, connected).conns
    ensures c in Notify(s, c, reply, connected).core.objs ==>
              c in SetFor(Notify(s, c, reply, connected).conns[k], KindOf(s.core, c))
  {
    hide Inv, Notify, Owed, AnsweredWith;
    ReplyIsAnswered(s, c, k, reply, connected);
    NotYetAttached(s, c, k);
    UsableReplyKeeps(s, c, k, reply, connected);
    OwedHandle(KindOf(s.core, c), c, reply);
    CreatedIffOk(s, Notify(s, c, reply, connected), c, k, Owed(KindOf(s.core, c), c, reply));
  }

  lemma RemovedIffOk(s: State, t: State, c: Id, k: Id, i: Id, owed: Outcome)
    requires c in s.core.cmds && k in s.conns && AnsweredWith(s, t, c, k, owed) && Inv(t, {})
    requires Removes(KindOf(s.core, c), i) && FindsObject(s, c, k)
    requires ConnOk(s.core, k, s.conns[k]) && i in t.core.cmds && i in s.core.cmds && KindOf(t.core, i) == KindOf(s.core, i)
    requires i !in t.core.live
    ensures owed.code.Ok? <==> i !in t.core.objs
  {
    AttachedIffInSets(t, i);
    hide Inv;
  }

  /** An object that belongs to a connection has outlived the command that created it. */
  lemma CreatorIsGone(s: State, c: Id, k: Id, i: Id)
    requires Inv(s, {}) && k in s.conns && c in s.conns[k].pending && c in s.core.cmds && Removes(KindOf(s.core, c), i)
    ensures ConnOk(s.core, k, s.conns[k]) && FindsObject(s, c, k)
    ensures i in s.core.cmds && i < s.core.nextId && (i in s.core.live ==> History(s.core, i) != [])
  {
    PendingIsFound(s, c, k);
    assert ConnOk(s.core, k, s.conns[k]);
    AttachedMeansOwned(s.core, s.conns, i);
    assert CmdOk(s.core, ParkedSet(s.core, s.conns), AttachedSet(s.core, s.conns), {}, i);
  }

  /** The client of an unsubscription or unregistration is told of success exactly when the object
      it named is gone. */
  lemma RemovalIsReported(s: State, c: Id, k: Id, i: Id, reply: Reply, connected: bool)
    requires Inv(s, {}) && k in s.conns && c in s.conns[k].pending && c in s.core.cmds
    requires Usable(KindOf(s.core, c), reply, connected) && Removes(KindOf(s.core, c), i)
    ensures exists owed :: AnsweredWith(s, Notify(s, c, reply, connected), c, k, owed)
                           && (owed.code.Ok? <==> i !in Notify(s, c, reply, connected).core.objs)
  {
    hide Inv, Notify, Owed, AnsweredWith, ConnOk, Steady;
    ReplyIsAnswered(s, c, k, reply, connected);
    CreatorIsGone(s, c, k, i);
    UsableReplyKeeps(s, c, k, reply, connected);
    NotifySteady(s, c, reply, connected);
    var t := Notify(s, c, reply, connected);
    SteadyKeepsKind(s.core, t.core, i);
    StaysGone(s, t, i);
    RemovedIffOk(s, t, c, k, i, Owed(KindOf(s.core, c), c, reply));
  }

  /** Between two steps a live command has not been completed, so a completed one is not live. */
  lemma StaysGone(s: State, t: State, i: Id)
    requires Inv(s, {}) && Steady(s.core, t.core) && i in s.core.cmds && i < s.core.nextId
    requires i in s.core.live ==> History(s.core, i) != []
    ensures i !in t.core.live
  {
    assert CmdOk(s.core, ParkedSet(s.core, s.conns), AttachedSet(s.core, s.conns), {}, i);
    assert CmdProgress(s.core, t.core, i);
  }
}
