/** The invariant of the whole library: commands, cached connections and D-Bus references. */
module Invariant {
  import opened Commands
  import opened Wrappers
  import opened Connections
  import opened CoreInvariant

  /** Commands in the pending set of the connection they work on. */
  function ParkedSet(a: Core, conns: map<Id, Conn>): set<Id> {
    set c | c in a.cmds && IsParked(a, conns, c)
  }

  predicate IsParked(a: Core, conns: map<Id, Conn>, c: Id)
    requires c in a.cmds
  {
    var t := Target(a, KindOf(a, c));
    t.Some? && t.value in conns && c in conns[t.value].pending
  }

  /** Subscriptions and registrations in the sets of the connection they name. */
  function AttachedSet(a: Core, conns: map<Id, Conn>): set<Id> {
    set i | i in a.cmds && IsAttached(a, conns, i)
  }

  predicate IsAttached(a: Core, conns: map<Id, Conn>, i: Id)
    requires i in a.cmds
  {
    var kind := KindOf(a, i);
    && CreatesObject(kind) && kind.conn in conns
    && (i in conns[kind.conn].subs || i in conns[kind.conn].regs)
  }

  /** A pending removal names an object its connection still has. */
  ghost predicate PendingOk(a: Core, k: Id, conn: Conn, c: Id) {
    && c in a.cmds
    && Target(a, KindOf(a, c)) == Some(k)
    && (KindOf(a, c).Unsubscribe? ==> KindOf(a, c).sub in conn.subs)
    && (KindOf(a, c).UnregisterService? ==> KindOf(a, c).reg in conn.regs)
  }

  /** Both commands remove the same subscription or registration. */
  predicate SameRemoval(a: Core, c: Id, d: Id)
    requires c in a.cmds && d in a.cmds
  {
    (KindOf(a, c).Unsubscribe? || KindOf(a, c).UnregisterService?) && KindOf(a, c) == KindOf(a, d)
  }

  ghost predicate ConnOk(a: Core, k: Id, conn: Conn) {
    && k < a.nextId
    && (forall c :: c in conn.pending ==> PendingOk(a, k, conn, c))
    && (forall c, d :: c in conn.pending && d in conn.pending && SameRemoval(a, c, d) ==> c == d)
    && (forall i :: i in conn.subs ==> i in a.cmds && CreatesSubscription(KindOf(a, i)) && KindOf(a, i).conn == k)
    && (forall i :: i in conn.regs ==> i in a.cmds && KindOf(a, i).RegisterService? && KindOf(a, i).conn == k)
  }

  ghost predicate LinksOk(a: Core, conns: map<Id, Conn>) {
    forall k :: k in conns ==> ConnOk(a, k, conns[k])
  }

  /** The wrapper's count, the number of outstanding creates and the references held on the
      underlying connection agree, and no two wrappers share an underlying connection. */
  ghost predicate RefsOk(conns: map<Id, Conn>, refs: map<nat, nat>) {
    && (forall k :: k in conns ==>
          && conns[k].refCount >= 1
          && conns[k].creates == conns[k].releases + conns[k].refCount
          && RefsOn(refs, conns[k].dbus) == conns[k].refCount)
    && (forall j, k :: j in conns && k in conns && conns[j].dbus == conns[k].dbus ==> j == k)
    && (forall d :: RefsOn(refs, d) > 0 ==> exists k :: k in conns && conns[k].dbus == d)
  }

  ghost predicate ListOk(conns: map<Id, Conn>, list: seq<Id>) {
    forall k :: k in list ==> k in conns
  }

  /** `hand` holds the commands the operation in progress is dealing with. */
  ghost predicate Inv(s: State, hand: set<Id>) {
    && CoreInv(s.core, ParkedSet(s.core, s.conns), AttachedSet(s.core, s.conns), hand)
    && LinksOk(s.core, s.conns)
    && RefsOk(s.conns, s.refs)
    && ListOk(s.conns, s.dispatchList)
  }

  // ----- what growing the commands does to the links -----

  ghost predicate KindsGrow(a: Core, b: Core) {
    && a.nextId <= b.nextId
    && (forall c :: c in a.cmds ==> c in b.cmds && b.cmds[c].request == a.cmds[c].request)
  }

  lemma GrowsKeepsConn(a: Core, b: Core, k: Id, conn: Conn)
    requires KindsGrow(a, b) && ConnOk(a, k, conn)
    ensures ConnOk(b, k, conn)
  {
    forall c | c in conn.pending ensures PendingOk(b, k, conn, c) {
      assert PendingOk(a, k, conn, c);
    }
    forall c, d | c in conn.pending && d in conn.pending && c in b.cmds && d in b.cmds && SameRemoval(b, c, d)
      ensures c == d
    {
      assert PendingOk(a, k, conn, c) && PendingOk(a, k, conn, d);
      assert SameRemoval(a, c, d);
    }
  }

  lemma GrowsKeepsLinks(a: Core, b: Core, conns: map<Id, Conn>)
    requires KindsGrow(a, b) && LinksOk(a, conns)
    ensures LinksOk(b, conns)
    ensures ParkedSet(b, conns) == ParkedSet(a, conns)
    ensures AttachedSet(b, conns) == AttachedSet(a, conns)
  {
    forall k | k in conns ensures ConnOk(b, k, conns[k]) {
      assert ConnOk(a, k, conns[k]);
      GrowsKeepsConn(a, b, k, conns[k]);
    }
    hide ConnOk;
    forall c ensures c in ParkedSet(b, conns) <==> c in ParkedSet(a, conns) {
      ParkedMeansPending(a, conns, c);
      ParkedMeansPending(b, conns, c);
    }
    forall i ensures i in AttachedSet(b, conns) <==> i in AttachedSet(a, conns) {
      AttachedMeansOwned(a, conns, i);
      AttachedMeansOwned(b, conns, i);
    }
  }

  lemma ParkedMeansPending(a: Core, conns: map<Id, Conn>, c: Id)
    requires LinksOk(a, conns)
    ensures c in ParkedSet(a, conns) <==> exists k :: k in conns && c in conns[k].pending
  {
    if k :| k in conns && c in conns[k].pending {
      assert ConnOk(a, k, conns[k]);
      assert PendingOk(a, k, conns[k], c);
    }
  }

  lemma AttachedMeansOwned(a: Core, conns: map<Id, Conn>, i: Id)
    requires LinksOk(a, conns)
    ensures i in AttachedSet(a, conns) <==> exists k :: k in conns && (i in conns[k].subs || i in conns[k].regs)
  {
    if k :| k in conns && (i in conns[k].subs || i in conns[k].regs) {
      assert ConnOk(a, k, conns[k]);
    }
  }

  // ----- operations that leave the connections alone -----

  lemma CoreStepKeeps(s: State, b: Core, hand: set<Id>, hand': set<Id>)
    requires Inv(s, hand) && KindsGrow(s.core, b)
    requires CoreInv(b, ParkedSet(s.core, s.conns), AttachedSet(s.core, s.conns), hand')
    ensures Inv(s.(core := b), hand')
  {
    hide CoreInv, LinksOk, RefsOk, ListOk;
    GrowsKeepsLinks(s.core, b, s.conns);
  }

  lemma DeliverKeeps(s: State, c: Id, outcome: Outcome, hand: set<Id>)
    requires Inv(s, hand) && c in hand && History(s.core, c) == []
    ensures Inv(Deliver(s, c, outcome), hand)
    ensures Deliver(s, c, outcome).core.history == s.core.history[c := [outcome]]
    ensures Extends(s.core.(history := s.core.history[c := [outcome]]), Deliver(s, c, outcome).core)
  {
    hide CoreInv, LinksOk, RefsOk, Complete;
    CompleteKeeps(s.core, c, outcome, ParkedSet(s.core, s.conns), AttachedSet(s.core, s.conns), hand);
    CoreStepKeeps(s, Complete(s.core, c, outcome), hand, hand);
  }

  lemma DisposeKeeps(s: State, c: Id, hand: set<Id>)
    requires Inv(s, hand) && c in hand && c in s.core.cmds
    requires MayStaySilent(KindOf(s.core, c)) || |History(s.core, c)| == 1
    requires CanNotify(CallOf(s.core, c)) ==> KindOf(s.core, c).SubscribeOwnerChanged?
    ensures Inv(Dispose(s, c), hand - {c})
  {
    hide CoreInv, LinksOk, RefsOk;
    DeleteKeeps(s.core, c, ParkedSet(s.core, s.conns), AttachedSet(s.core, s.conns), hand);
    CoreStepKeeps(s, Delete(s.core, c), hand, hand - {c});
  }

  // ----- destroying a connection -----

  /** Without connection `k`, its pending commands are no longer parked and its objects no longer
      attached. */
  lemma RemovedConnLinks(a: Core, conns: map<Id, Conn>, k: Id)
    requires LinksOk(a, conns) && k in conns
    ensures LinksOk(a, conns - {k})
    ensures conns[k].pending <= ParkedSet(a, conns) && conns[k].subs + conns[k].regs <= AttachedSet(a, conns)
    ensures ParkedSet(a, conns - {k}) == ParkedSet(a, conns) - conns[k].pending
    ensures AttachedSet(a, conns - {k}) == AttachedSet(a, conns) - (conns[k].subs + conns[k].regs)
  {
    assert ConnOk(a, k, conns[k]);
    forall j | j in conns - {k} ensures ConnOk(a, j, (conns - {k})[j]) {
      assert ConnOk(a, j, conns[j]);
    }
    forall c | c in conns[k].pending ensures c in ParkedSet(a, conns) {
      assert PendingOk(a, k, conns[k], c);
    }
  }

  lemma UnrefLast(conns: map<Id, Conn>, refs: map<nat, nat>, k: Id)
    requires RefsOk(conns, refs) && k in conns && conns[k].refCount == 1
    ensures RefsOk(conns - {k}, refs[conns[k].dbus := 0])
  {
    var d := conns[k].dbus;
    var r := refs[d := 0];
    forall e | RefsOn(r, e) > 0 ensures exists j :: j in conns - {k} && (conns - {k})[j].dbus == e {
      assert RefsOn(refs, e) > 0;
      var j :| j in conns && conns[j].dbus == e;
      assert j in conns - {k};
    }
  }

  /** Dropping the last reference: the pending commands of the connection are each cancelled
      once, its objects freed, and nothing else is touched. */
  lemma DestroyKeeps(s: State, k: Id, hand: set<Id>)
    requires Inv(s, hand) && k in s.conns && s.conns[k].refCount == 1
    ensures Inv(Destroy(s, k), hand)
    ensures s.conns[k].pending <= s.core.cmds.Keys
    ensures Finishes(s.core, Destroy(s, k).core.(objs := CancelAll(s.core, s.conns[k].pending).objs), s.conns[k].pending)
    ensures Destroy(s, k).core.objs == CancelAll(s.core, s.conns[k].pending).objs - s.conns[k].subs - s.conns[k].regs
    ensures RefsOn(Destroy(s, k).refs, s.conns[k].dbus) == 0
    ensures forall d :: d != s.conns[k].dbus ==> RefsOn(Destroy(s, k).refs, d) == RefsOn(s.refs, d)
  {
    var conn := s.conns[k];
    var p := ParkedSet(s.core, s.conns);
    var q := AttachedSet(s.core, s.conns);
    assert conn.refCount == RefsOn(s.refs, conn.dbus);
    hide CoreInv, LinksOk, RefsOk, CancelAll, Finishes;
    RemovedConnLinks(s.core, s.conns, k);
    TakeParked(s.core, conn.pending, p, q, hand);
    CancelAllKeeps(s.core, conn.pending, p - conn.pending, q, hand);
    var a := CancelAll(s.core, conn.pending);
    DetachedKeeps(a, conn.subs + conn.regs, p - conn.pending, q, hand);
    assert a.objs - (conn.subs + conn.regs) == a.objs - conn.subs - conn.regs;
    FinishesGrowsKinds(s.core, a, conn.pending);
    var b := a.(objs := a.objs - conn.subs - conn.regs);
    GrowsKeepsLinks(s.core, b, s.conns - {k});
    UnrefLast(s.conns, s.refs, k);
    assert b.(objs := a.objs) == a;
  }

  lemma FinishesGrowsKinds(a: Core, b: Core, p: set<Id>)
    requires p <= a.cmds.Keys && Finishes(a, b, p)
    ensures KindsGrow(a, b)
  {
  }

  // ----- updating one connection -----

  function PendingOf(conns: map<Id, Conn>, k: Id): set<Id> {
    if k in conns then conns[k].pending else {}
  }

  function ObjectsOf(conns: map<Id, Conn>, k: Id): set<Id> {
    if k in conns then conns[k].subs + conns[k].regs else {}
  }

  lemma UpdatedConnLinks(a: Core, conns: map<Id, Conn>, k: Id, conn: Conn)
    requires LinksOk(a, conns) && ConnOk(a, k, conn)
    ensures LinksOk(a, conns[k := conn])
    ensures ParkedSet(a, conns[k := conn]) == ParkedSet(a, conns) - PendingOf(conns, k) + conn.pending
    ensures AttachedSet(a, conns[k := conn]) == AttachedSet(a, conns) - ObjectsOf(conns, k) + (conn.subs + conn.regs)
  {
    var conns' := conns[k := conn];
    forall j | j in conns' ensures ConnOk(a, j, conns'[j]) {
      if j != k {
        assert ConnOk(a, j, conns[j]);
      }
    }
    forall c ensures c in ParkedSet(a, conns') <==> c in ParkedSet(a, conns) - PendingOf(conns, k) + conn.pending {
      if c in conn.pending {
        assert PendingOk(a, k, conn, c);
      }
      if k in conns && c in conns[k].pending {
        assert ConnOk(a, k, conns[k]);
        assert PendingOk(a, k, conns[k], c);
      }
    }
    UpdatedConnObjects(a, conns, k, conn);
  }

  lemma UpdatedConnObjects(a: Core, conns: map<Id, Conn>, k: Id, conn: Conn)
    requires LinksOk(a, conns) && ConnOk(a, k, conn)
    ensures AttachedSet(a, conns[k := conn]) == AttachedSet(a, conns) - ObjectsOf(conns, k) + (conn.subs + conn.regs)
  {
    if k in conns {
      assert ConnOk(a, k, conns[k]);
    }
  }

  lemma UnrefOne(conns: map<Id, Conn>, refs: map<nat, nat>, k: Id, conn: Conn)
    requires RefsOk(conns, refs) && k in conns && conns[k].refCount > 1
    requires conn == conns[k].(refCount := conns[k].refCount - 1, releases := conns[k].releases + 1)
    ensures RefsOn(refs, conn.dbus) > 1
    ensures RefsOk(conns[k := conn], refs[conn.dbus := RefsOn(refs, conn.dbus) - 1])
  {
    var conns' := conns[k := conn];
    var r := refs[conn.dbus := RefsOn(refs, conn.dbus) - 1];
    forall e | RefsOn(r, e) > 0 ensures exists j :: j in conns' && conns'[j].dbus == e {
      assert RefsOn(refs, e) > 0;
      var j :| j in conns && conns[j].dbus == e;
      assert j in conns' && conns'[j].dbus == e;
    }
  }

  lemma ConnOkIgnoresCounts(a: Core, k: Id, conn: Conn, conn': Conn)
    requires ConnOk(a, k, conn) && conn'.pending == conn.pending && conn'.subs == conn.subs && conn'.regs == conn.regs
    ensures ConnOk(a, k, conn')
  {
    forall c | c in conn'.pending ensures PendingOk(a, k, conn', c) {
      assert PendingOk(a, k, conn, c);
    }
  }

  lemma SameLinks(a: Core, conns: map<Id, Conn>, k: Id, conn: Conn)
    requires LinksOk(a, conns) && k in conns
    requires conn.pending == conns[k].pending && conn.subs == conns[k].subs && conn.regs == conns[k].regs
    ensures LinksOk(a, conns[k := conn])
    ensures ParkedSet(a, conns[k := conn]) == ParkedSet(a, conns)
    ensures AttachedSet(a, conns[k := conn]) == AttachedSet(a, conns)
  {
    assert ConnOk(a, k, conns[k]);
    ConnOkIgnoresCounts(a, k, conns[k], conn);
    UpdatedConnLinks(a, conns, k, conn);
    RemovedConnLinks(a, conns, k);
  }

  /** An operation in progress leaves the commands in hand as they are. */
  ghost predicate Spares(a: Core, b: Core, hand: set<Id>) {
    && Grows(a, b)
    && (forall c :: c in hand ==> Spared(a, b, c))
  }

  ghost predicate Spared(a: Core, b: Core, c: Id) {
    && c in a.cmds && c in b.cmds
    && History(b, c) == History(a, c) && CallOf(b, c) == CallOf(a, c)
  }

  lemma SparesTransitive(a: Core, b: Core, c: Core, hand: set<Id>)
    requires Spares(a, b, hand) && Spares(b, c, hand)
    ensures Spares(a, c, hand)
  {
    GrowsTransitive(a, b, c);
    forall x | x in hand ensures Spared(a, c, x) {
      assert Spared(a, b, x) && Spared(b, c, x);
    }
  }

  lemma SparesItself(a: Core, hand: set<Id>)
    requires hand <= a.cmds.Keys
    ensures Spares(a, a, hand)
  {
  }

  lemma FinishesSpares(a: Core, b: Core, p: set<Id>, hand: set<Id>, objs: set<Id>)
    requires p <= a.cmds.Keys && hand <= a.cmds.Keys && p !! hand && Finishes(a, b, p)
    ensures Spares(a, b.(objs := objs), hand)
  {
    forall c | c in hand ensures Spared(a, b.(objs := objs), c) {
      assert Untouched(a, b, c);
    }
  }

  lemma HandIsKnown(s: State, hand: set<Id>)
    requires Inv(s, hand)
    ensures hand <= s.core.cmds.Keys
    ensures forall k :: k in s.conns ==> s.conns[k].pending !! hand
  {
    forall k, c | k in s.conns && c in s.conns[k].pending ensures c !in hand {
      ParkedMeansPending(s.core, s.conns, c);
      assert CmdOk(s.core, ParkedSet(s.core, s.conns), AttachedSet(s.core, s.conns), hand, c);
    }
  }

  lemma DropOneKeeps(s: State, k: Id, hand: set<Id>)
    requires Inv(s, hand) && k in s.conns && s.conns[k].refCount > 1
    ensures Inv(DecRef(s, k), hand) && DecRef(s, k).core == s.core
  {
    hide CoreInv, LinksOk, RefsOk, Destroy, ParkedSet, AttachedSet;
    var conn := s.conns[k].(refCount := s.conns[k].refCount - 1, releases := s.conns[k].releases + 1);
    UnrefOne(s.conns, s.refs, k, conn);
    SameLinks(s.core, s.conns, k, conn);
  }

  lemma DecRefKeeps(s: State, k: Id, hand: set<Id>)
    requires Inv(s, hand) && k in s.conns
    ensures s.conns[k].refCount > 0 && Inv(DecRef(s, k), hand)
    ensures Spares(s.core, DecRef(s, k).core, hand)
  {
    HandIsKnown(s, hand);
    assert s.conns[k].refCount > 0;
    hide Inv, Destroy, Finishes;
    if s.conns[k].refCount == 1 {
      DestroyKeeps(s, k, hand);
      var t := Destroy(s, k);
      FinishesSpares(s.core, t.core.(objs := CancelAll(s.core, s.conns[k].pending).objs), s.conns[k].pending, hand, t.core.objs);
    } else {
      DropOneKeeps(s, k, hand);
      SparesItself(s.core, hand);
    }
  }

  lemma InvCounts(s: State, hand: set<Id>)
    requires Inv(s, hand)
    ensures CountsPositive(s)
  {
  }

  lemma ReleaseKeeps(s: State, k: Id, hand: set<Id>)
    requires Inv(s, hand)
    ensures CountsPositive(s) && Inv(Release(s, k), hand) && Spares(s.core, Release(s, k).core, hand)
  {
    InvCounts(s, hand);
    HandIsKnown(s, hand);
    hide Inv, DecRef, Spares;
    if k in s.conns {
      DecRefKeeps(s, k, hand);
    } else {
      SparesItself(s.core, hand);
    }
  }

  lemma {:induction false} ForceReleaseAllKeeps(s: State, hand: set<Id>)
    requires Inv(s, hand)
    ensures CountsPositive(s) && Inv(ForceReleaseAll(s), hand) && Spares(s.core, ForceReleaseAll(s).core, hand)
    decreases |s.conns.Keys|, if s.conns.Keys == {} then 0 else s.conns[Least(s.conns.Keys)].refCount
  {
    hide Inv, Spares, DecRef, CountsPositive;
    InvCounts(s, hand);
    HandIsKnown(s, hand);
    if s.conns.Keys == {} {
      SparesItself(s.core, hand);
    } else {
      var k := Least(s.conns.Keys);
      DecRefKeeps(s, k, hand);
      var t := DecRef(s, k);
      InvCounts(t, hand);
      assert if s.conns[k].refCount == 1 then t.conns.Keys == s.conns.Keys - {k} else t.conns.Keys == s.conns.Keys;
      ForceReleaseAllKeeps(t, hand);
      SparesTransitive(s.core, t.core, ForceReleaseAll(t).core, hand);
    }
  }

  // ----- creating a connection -----

  lemma RefAdded(conns: map<Id, Conn>, refs: map<nat, nat>, k: Id, conn: Conn)
    requires RefsOk(conns, refs) && k in conns
    requires conn == conns[k].(refCount := conns[k].refCount + 1, creates := conns[k].creates + 1)
    ensures RefsOk(conns[k := conn], refs[conn.dbus := RefsOn(refs, conn.dbus) + 1])
  {
    var conns' := conns[k := conn];
    var r := refs[conn.dbus := RefsOn(refs, conn.dbus) + 1];
    forall e | RefsOn(r, e) > 0 ensures exists j :: j in conns' && conns'[j].dbus == e {
      if e == conn.dbus {
        assert k in conns' && conns'[k].dbus == e;
      } else {
        assert RefsOn(refs, e) > 0;
        var j :| j in conns && conns[j].dbus == e;
        assert j in conns' && conns'[j].dbus == e;
      }
    }
  }

  lemma RefStarted(conns: map<Id, Conn>, refs: map<nat, nat>, k: Id, conn: Conn)
    requires RefsOk(conns, refs) && k !in conns && forall j :: j in conns ==> conns[j].dbus != conn.dbus
    requires conn.refCount == 1 && conn.creates == 1 && conn.releases == 0
    ensures RefsOn(refs, conn.dbus) == 0
    ensures RefsOk(conns[k := conn], refs[conn.dbus := 1])
    ensures RefsOk(conns, refs[conn.dbus := 0])
  {
    var conns' := conns[k := conn];
    var r := refs[conn.dbus := 1];
    forall e | RefsOn(r, e) > 0 ensures exists j :: j in conns' && conns'[j].dbus == e {
      if e == conn.dbus {
        assert k in conns' && conns'[k].dbus == e;
      } else {
        assert RefsOn(refs, e) > 0;
        var j :| j in conns && conns[j].dbus == e;
        assert j in conns' && conns'[j].dbus == e;
      }
    }
    var z := refs[conn.dbus := 0];
    forall e | RefsOn(z, e) > 0 ensures exists j :: j in conns && conns[j].dbus == e {
      assert RefsOn(refs, e) > 0;
    }
  }

  lemma FreshIdKeepsCore(a: Core, parked: set<Id>, attached: set<Id>, hand: set<Id>)
    requires CoreInv(a, parked, attached, hand)
    ensures CoreInv(a.(nextId := a.nextId + 1), parked, attached, hand)
  {
    var b := a.(nextId := a.nextId + 1);
    forall c | c in b.cmds ensures CmdOk(b, parked, attached, hand, c) {
      assert CmdOk(a, parked, attached, hand, c);
    }
  }

  lemma FreshIdIsUncached(s: State, hand: set<Id>)
    requires Inv(s, hand)
    ensures s.core.nextId !in s.conns
  {
    forall k | k in s.conns ensures k < s.core.nextId {
      assert ConnOk(s.core, k, s.conns[k]);
    }
  }

  lemma EmptyConnOk(a: Core, k: Id, conn: Conn)
    requires k < a.nextId && conn.pending == conn.subs == conn.regs == {}
    ensures ConnOk(a, k, conn)
  {
  }

  lemma NotCached(s: State, d: nat)
    requires CachedOn(s, d) == {}
    ensures forall j :: j in s.conns ==> s.conns[j].dbus != d
  {
    forall j | j in s.conns ensures s.conns[j].dbus != d {
      assert j !in CachedOn(s, d);
    }
  }

  lemma EnterKeeps(s: State, d: nat, isPrivate: bool, hand: set<Id>)
    requires Inv(s, hand) && CachedOn(s, d) == {}
    ensures Inv(Enter(AddRef(s, d), d, isPrivate), hand)
  {
    hide CoreInv, LinksOk, RefsOk, ConnOk, ParkedSet, AttachedSet;
    FreshIdIsUncached(s, hand);
    NotCached(s, d);
    var k, conn := s.core.nextId, Conn(d, isPrivate, 1, 1, 0, {}, {}, {});
    var a := s.core.(nextId := k + 1);
    EmptyConnOk(a, k, conn);
    var p, q := ParkedSet(s.core, s.conns), AttachedSet(s.core, s.conns);
    FreshIdKeepsCore(s.core, p, q, hand);
    GrowsKeepsLinks(s.core, a, s.conns);
    UpdatedConnLinks(a, s.conns, k, conn);
    assert p - {} + {} == p && q - {} + ({} + {}) == q;
    RefStarted(s.conns, s.refs, k, conn);
  }

  lemma ShareKeeps(s: State, k: Id, hand: set<Id>)
    requires Inv(s, hand) && k in s.conns
    ensures Inv(Share(AddRef(s, s.conns[k].dbus), k), hand)
  {
    hide CoreInv, LinksOk, RefsOk, ParkedSet, AttachedSet;
    var conn := s.conns[k].(refCount := s.conns[k].refCount + 1, creates := s.conns[k].creates + 1);
    RefAdded(s.conns, s.refs, k, conn);
    SameLinks(s.core, s.conns, k, conn);
  }

  lemma RejectKeeps(s: State, d: nat, hand: set<Id>)
    requires Inv(s, hand) && CachedOn(s, d) == {}
    ensures Inv(Unref(AddRef(s, d), d), hand) && Unref(AddRef(s, d), d).core == s.core
  {
    hide CoreInv, LinksOk, RefsOk;
    NotCached(s, d);
    FreshIdIsUncached(s, hand);
    RefStarted(s.conns, s.refs, s.core.nextId, Conn(d, false, 1, 1, 0, {}, {}, {}));
    assert s.refs[d := 1][d := 0] == s.refs[d := 0];
  }

  lemma CreateKeeps(s: State, isPrivate: bool, opening: Opening, hand: set<Id>)
    requires Inv(s, hand)
    ensures Inv(Create(s, isPrivate, opening).0, hand)
    ensures Spares(s.core, Create(s, isPrivate, opening).0.core, hand)
  {
    hide Inv, Unref;
    HandIsKnown(s, hand);
    SparesItself(s.core, hand);
    if opening.Opened? {
      var d := opening.dbus;
      if CachedOn(s, d) != {} {
        ShareKeeps(s, Least(CachedOn(s, d)), hand);
      } else if opening.setUp {
        EnterKeeps(s, d, isPrivate, hand);
      } else {
        RejectKeeps(s, d, hand);
      }
    }
  }
}
