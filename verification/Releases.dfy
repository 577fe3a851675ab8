/** Reference counts, and what releasing connections does to what hangs on them. */
module Releases {
  import opened Commands
  import opened Wrappers
  import opened Connections
  import opened CoreInvariant
  import opened Invariant
  import opened Runs
  import opened Guarantees

  /** Reference conservation: for every cached wrapper the creates that have not been released, its
      own count and the references held on the underlying connection are the same positive number;
      no two wrappers share an underlying connection, and none is held without a wrapper. */
  lemma ReferencesConserved(steps: seq<Step>, d: nat)
    requires Run(INITIAL, steps)
    ensures var s := After(INITIAL, steps);
            && CachedOn(s, d) == (if RefsOn(s.refs, d) == 0 then {} else {TheWrapper(s, d)})
            && (forall k :: k in CachedOn(s, d) ==>
                  s.conns[k].creates - s.conns[k].releases == s.conns[k].refCount == RefsOn(s.refs, d) > 0)
  {
    ReachableIsGood(steps);
    hide Run, After;
    OneWrapper(After(INITIAL, steps), d);
  }

  /** The wrapper of an underlying connection. */
  ghost function TheWrapper(s: State, d: nat): Id {
    if k :| k in s.conns && s.conns[k].dbus == d then k else 0
  }

  lemma OneWrapper(s: State, d: nat)
    requires Good(s)
    ensures CachedOn(s, d) == if RefsOn(s.refs, d) == 0 then {} else {TheWrapper(s, d)}
    ensures forall k :: k in CachedOn(s, d) ==>
              s.conns[k].creates - s.conns[k].releases == s.conns[k].refCount == RefsOn(s.refs, d) > 0
  {
    forall k | k in CachedOn(s, d) ensures k == TheWrapper(s, d) && RefsOn(s.refs, d) > 0 {
      assert k in s.conns && s.conns[k].dbus == d;
    }
    if RefsOn(s.refs, d) > 0 {
      assert exists k :: k in s.conns && s.conns[k].dbus == d;
    }
  }

  /** Releasing gives up exactly one reference on exactly one underlying connection; the wrapper
      goes with its last reference; releasing a connection that is not cached does nothing. The
      commands in `hand` are those being executed. */
  lemma ReleaseGivesUpOne(s: State, k: Id, hand: set<Id>)
    requires Inv(s, hand)
    ensures CountsPositive(s)
    ensures k !in s.conns ==> Release(s, k) == s
    ensures k in s.conns ==>
              && RefsOn(Release(s, k).refs, s.conns[k].dbus) == RefsOn(s.refs, s.conns[k].dbus) - 1
              && (forall d :: d != s.conns[k].dbus ==> RefsOn(Release(s, k).refs, d) == RefsOn(s.refs, d))
              && (k in Release(s, k).conns <==> s.conns[k].refCount > 1)
              && (forall j :: j != k ==> (j in Release(s, k).conns <==> j in s.conns))
              && (forall j :: j in s.conns && j != k ==> Release(s, k).conns[j] == s.conns[j])
  {
    InvCounts(s, hand);
    if k in s.conns {
      assert RefsOn(s.refs, s.conns[k].dbus) == s.conns[k].refCount;
      hide Inv, Destroy;
      if s.conns[k].refCount == 1 {
        DestroyKeeps(s, k, hand);
      }
    }
  }

  /** Obtaining a connection takes exactly one reference on the underlying connection and gives the
      handle of its one wrapper; an attempt that fails leaves neither a wrapper nor a reference. */
  lemma CreateTakesOne(s: State, isPrivate: bool, opening: Opening, hand: set<Id>)
    requires Inv(s, hand)
    ensures var (t, o) := Create(s, isPrivate, opening);
            && (o.handle.Some? ==>
                  && opening.Opened? && CachedOn(t, opening.dbus) == {o.handle.value}
                  && (forall d :: RefsOn(t.refs, d) == RefsOn(s.refs, d) + if d == opening.dbus then 1 else 0))
            && (o.handle.None? ==> t.conns == s.conns && forall d :: RefsOn(t.refs, d) == RefsOn(s.refs, d))
    ensures Create(s, isPrivate, opening).1.handle.Some? <==> opening.Opened? && (opening.setUp || CachedOn(s, opening.dbus) != {})
  {
    if opening.Opened? {
      FreshIdIsUncached(s, hand);
      OnlyOneWrapper(s, opening.dbus, hand);
      hide Inv;
      var r := Create(s, isPrivate, opening);
      if r.1.handle.Some? {
        forall k | k in CachedOn(r.0, opening.dbus) ensures k == r.1.handle.value {
          assert k in CachedOn(s, opening.dbus) || k == r.1.handle.value;
        }
        assert r.1.handle.value in CachedOn(r.0, opening.dbus);
      }
    }
  }

  /** A connection not cached before becomes the newest wrapper, with one reference and nothing pending or
      owned, and is the last in the dispatcher's list; one cached before has a reference more and is listed
      as it was. The other wrappers stay as they are. */
  lemma NewWrapperIsListed(s: State, isPrivate: bool, opening: Opening, hand: set<Id>)
    requires Inv(s, hand) && Create(s, isPrivate, opening).1.handle.Some?
    ensures var (t, o) := Create(s, isPrivate, opening);
            var k := o.handle.value;
            && k in t.conns && t.conns.Keys == s.conns.Keys + {k} && (forall x :: x in s.conns && x != k ==> t.conns[x] == s.conns[x])
            && t.core.nextId == s.core.nextId + (if k in s.conns then 0 else 1)
            && (k !in s.conns ==>
                  && k == s.core.nextId && t.dispatchList == s.dispatchList + [k]
                  && t.conns[k].isPrivate == isPrivate && t.conns[k].refCount == 1
                  && t.conns[k].pending == {} && t.conns[k].subs == {} && t.conns[k].regs == {})
            && (k in s.conns ==>
                  && t.dispatchList == s.dispatchList
                  && t.conns[k].refCount == s.conns[k].refCount + 1 && t.conns[k].isPrivate == s.conns[k].isPrivate
                  && t.conns[k].pending == s.conns[k].pending
                  && t.conns[k].subs == s.conns[k].subs && t.conns[k].regs == s.conns[k].regs)
  {
    hide Inv;
    FreshIdIsUncached(s, hand);
    if opening.Opened? && CachedOn(s, opening.dbus) != {} {
      assert Create(s, isPrivate, opening).0 == Share(AddRef(s, opening.dbus), Least(CachedOn(s, opening.dbus)));
    } else {
      assert Create(s, isPrivate, opening).0 == Enter(AddRef(s, opening.dbus), opening.dbus, isPrivate);
    }
  }

  lemma OnlyOneWrapper(s: State, d: nat, hand: set<Id>)
    requires Inv(s, hand)
    ensures forall j, k :: j in CachedOn(s, d) && k in CachedOn(s, d) ==> j == k
  {
  }

  // ----- everything at once -----

  /** The commands `p` have had their one cancellation and are gone; all others are as before. */
  ghost predicate SettledBy(a: Core, b: Core, p: set<Id>) {
    && Grows(a, b)
    && (forall c: Id :: c < a.nextId ==> SettledCmd(a, b, p, c))
  }

  ghost predicate SettledCmd(a: Core, b: Core, p: set<Id>, c: Id) {
    c in a.cmds ==>
      if c in p then
        && c !in b.live
        && History(b, c) == History(a, c) + [Outcome(Cancelled, None)]
        && (CanNotify(CallOf(b, c)) ==> KindOf(a, c).SubscribeOwnerChanged?)
      else
        && (c in b.live <==> c in a.live) && (c in b.held <==> c in a.held)
        && History(b, c) == History(a, c) && CallOf(b, c) == CallOf(a, c)
  }

  lemma FinishesSettles(a: Core, b: Core, p: set<Id>, objs: set<Id>)
    requires p <= a.cmds.Keys && Finishes(a, b.(objs := objs), p)
    ensures SettledBy(a, b, p)
  {
    forall c: Id | c < a.nextId ensures SettledCmd(a, b, p, c) {
      if c in p {
        assert Finished(a, b.(objs := objs), c);
      } else if c in a.cmds {
        assert Untouched(a, b.(objs := objs), c);
      }
    }
  }

  lemma NothingSettled(a: Core)
    ensures SettledBy(a, a, {})
  {
  }

  lemma SettledTransitive(a: Core, b: Core, c: Core, p: set<Id>, q: set<Id>)
    requires SettledBy(a, b, p) && SettledBy(b, c, q) && p !! q
    ensures SettledBy(a, c, p + q)
  {
    GrowsTransitive(a, b, c);
    forall i: Id | i < a.nextId ensures SettledCmd(a, c, p + q, i) {
      assert SettledCmd(a, b, p, i) && SettledCmd(b, c, q, i);
    }
  }

  lemma SettledGrowsKinds(a: Core, b: Core, p: set<Id>)
    requires SettledBy(a, b, p)
    ensures KindsGrow(a, b)
  {
  }

  /** Commands parked on a connection that a reference is taken from. */
  function LostWith(s: State, k: Id): set<Id>
    requires k in s.conns
  {
    if s.conns[k].refCount == 1 then s.conns[k].pending else {}
  }

  lemma DecRefSettles(s: State, k: Id, hand: set<Id>)
    requires Inv(s, hand) && k in s.conns
    ensures s.conns[k].refCount > 0 && SettledBy(s.core, DecRef(s, k).core, LostWith(s, k))
    ensures LostWith(s, k) <= ParkedSet(s.core, s.conns)
    ensures ParkedSet(DecRef(s, k).core, DecRef(s, k).conns) == ParkedSet(s.core, s.conns) - LostWith(s, k)
  {
    InvCounts(s, hand);
    hide CoreInv, LinksOk, RefsOk, ParkedSet, AttachedSet, Destroy, Finishes, SettledBy;
    if s.conns[k].refCount == 1 {
      DestroyKeeps(s, k, hand);
      var t := Destroy(s, k);
      FinishesSettles(s.core, t.core, s.conns[k].pending, CancelAll(s.core, s.conns[k].pending).objs);
      SettledGrowsKinds(s.core, t.core, s.conns[k].pending);
      RemovedConnLinks(s.core, s.conns, k);
      GrowsKeepsLinks(s.core, t.core, s.conns - {k});
    } else {
      NothingSettled(s.core);
      DropOneKeeps(s, k, hand);
      var conn := s.conns[k].(refCount := s.conns[k].refCount - 1, releases := s.conns[k].releases + 1);
      SameLinks(s.core, s.conns, k, conn);
    }
  }

  lemma NothingParked(s: State)
    requires s.conns.Keys == {}
    ensures ParkedSet(s.core, s.conns) == {}
  {
  }

  lemma {:induction false} ForceReleaseSettles(s: State, hand: set<Id>)
    requires Inv(s, hand)
    ensures CountsPositive(s) && SettledBy(s.core, ForceReleaseAll(s).core, ParkedSet(s.core, s.conns))
    decreases |s.conns.Keys|, if s.conns.Keys == {} then 0 else s.conns[Least(s.conns.Keys)].refCount
  {
    hide Inv, DecRef, SettledBy, ParkedSet, LostWith;
    InvCounts(s, hand);
    if s.conns.Keys == {} {
      NothingSettled(s.core);
      NothingParked(s);
    } else {
      var k := Least(s.conns.Keys);
      DecRefKeeps(s, k, hand);
      DecRefSettles(s, k, hand);
      var t := DecRef(s, k);
      InvCounts(t, hand);
      assert if s.conns[k].refCount == 1 then t.conns.Keys == s.conns.Keys - {k} else t.conns.Keys == s.conns.Keys;
      ForceReleaseSettles(t, hand);
      SettledTransitive(s.core, t.core, ForceReleaseAll(t).core, LostWith(s, k), ParkedSet(t.core, t.conns));
      assert LostWith(s, k) + (ParkedSet(s.core, s.conns) - LostWith(s, k)) == ParkedSet(s.core, s.conns);
    }
  }

  /** `forceReleaseAll`, from any state in which the commands in `hand` are being executed: the cache
      ends up empty, every D-Bus reference is dropped, the dispatcher's list names no destroyed
      connection, every command that was pending anywhere has been cancelled once and deleted, no other
      command has been touched, and no object handed over to a connection is left. */
  lemma ForceReleaseAllReleasesEverything(s: State, hand: set<Id>)
    requires Inv(s, hand)
    ensures CountsPositive(s)
    ensures var t := ForceReleaseAll(s);
            && t.conns == map[] && t.dispatchList == [] && (forall d :: RefsOn(t.refs, d) == 0)
            && SettledBy(s.core, t.core, ParkedSet(s.core, s.conns))
            && (forall i :: i in t.core.objs ==> IsLive(t.core, i) && t.core.cmds[i].owns)
            && Inv(t, hand)
  {
    ForceReleaseSettles(s, hand);
    hide SettledBy, ForceReleaseAll;
    ForceReleaseAllKeeps(s, hand);
    var t := ForceReleaseAll(s);
    EmptyCache(t, hand);
  }

  lemma HasFirst(list: seq<Id>)
    requires list != []
    ensures exists k :: k in list
  {
    assert list[0] in list;
  }

  lemma EmptyCache(t: State, hand: set<Id>)
    requires Inv(t, hand) && t.conns == map[]
    ensures t.dispatchList == [] && (forall d :: RefsOn(t.refs, d) == 0)
    ensures forall i :: i in t.core.objs ==> IsLive(t.core, i) && t.core.cmds[i].owns
  {
    if t.dispatchList != [] {
      HasFirst(t.dispatchList);
    }
    forall i | i in t.core.objs ensures IsLive(t.core, i) && t.core.cmds[i].owns {
      assert CmdOk(t.core, ParkedSet(t.core, t.conns), AttachedSet(t.core, t.conns), hand, i);
    }
  }
}
