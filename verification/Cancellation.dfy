/** Cancelling by handle, and releasing everything at once. */
module Cancellation {
  import opened Handles
  import opened Commands
  import opened Connections
  import opened CoreInvariant
  import opened Invariant
  import opened Execution
  import opened Runs
  import opened Guarantees

  // ----- first in, first out -----

  /** Whatever is behind a command in the queue was accepted after it. */
  lemma QueuedMeansLater(s: State, c: Id, t: Id)
    requires Good(s) && s.core.queue != [] && s.core.queue[0] == c
    requires t in s.core.cmds && t in s.core.queue
    ensures c in s.core.cmds && s.core.cmds[t].serial >= s.core.cmds[c].serial
  {
    var a := s.core;
    var n := |a.taken|;
    assert a.accepted[n] == c && c in a.queue;
    var j :| 0 <= j < |a.queue| && a.queue[j] == t;
    assert a.accepted[n + j] == t;
  }

  /** No other command still pending was accepted a whole number of handle periods away from `t`. */
  ghost predicate NoAlias(s: State, t: Id)
    requires t in s.core.cmds
  {
    forall d :: d in s.core.cmds && Pending(s, d) && d != t ==> (s.core.cmds[d].serial - s.core.cmds[t].serial) % PERIOD != 0
  }

  lemma HandleNames(s: State, t: Id, d: Id)
    requires Good(s) && t in s.core.cmds && s.core.cmds[t].serial > 0 && NoAlias(s, t)
    requires d in s.core.cmds && Pending(s, d)
    ensures s.core.cmds[d].handle == s.core.cmds[t].handle <==> d == t
  {
    AliasIffPeriods(s, t, d);
  }

  lemma MatchingIsTarget(s: State, t: Id, k: Id)
    requires Good(s) && t in s.core.cmds && s.core.cmds[t].serial > 0 && NoAlias(s, t) && k in s.conns
    ensures Matching(s, k, s.core.cmds[t].handle) == if t in s.conns[k].pending then {t} else {}
  {
    hide Good, NoAlias;
    forall d | d in s.conns[k].pending && d in s.core.cmds
      ensures s.core.cmds[d].handle == s.core.cmds[t].handle <==> d == t
    {
      HandleNames(s, t, d);
    }
  }

  lemma ConnsMatchingIsHolder(s: State, t: Id)
    requires Good(s) && t in s.core.cmds && s.core.cmds[t].serial > 0 && NoAlias(s, t)
    ensures ConnsMatching(s, s.core.cmds[t].handle) == PendingOn(s, t)
  {
    forall k | k in s.conns
      ensures Matching(s, k, s.core.cmds[t].handle) == if t in s.conns[k].pending then {t} else {}
    {
      MatchingIsTarget(s, t, k);
    }
    hide Good, NoAlias, Matching;
    forall k ensures k in ConnsMatching(s, s.core.cmds[t].handle) <==> k in PendingOn(s, t) {
    }
  }

  /** What the cancelling command sees: the state with itself taken off the queue. */
  lemma TakenOffLooksTheSame(s: State, h: Uint32)
    requires s.core.queue != [] && s.core.pipe > 0
    ensures ConnsMatching(TakenOff(s), h) == ConnsMatching(s, h)
    ensures forall k :: k in s.conns ==> Matching(TakenOff(s), k, h) == Matching(s, k, h)
  {
    forall k | k in s.conns ensures Matching(TakenOff(s), k, h) == Matching(s, k, h) {
    }
  }

  /** A command that cancels by a handle an earlier submission returned never finds its target
      still queued: the target has been executed. It answers Ok exactly when the target is pending
      on a cached connection, and then finishes the target, takes it out of that one pending set
      and touches nothing else; otherwise it answers not-found and changes nothing. */
  lemma CancelIsPrecise(s: State, c: Id, t: Id)
    requires Good(s) && s.core.queue != [] && s.core.pipe > 0 && s.core.queue[0] == c
    requires c in s.core.cmds && t in s.core.cmds
    requires 0 < s.core.cmds[t].serial < s.core.cmds[c].serial && NoAlias(s, t)
    ensures t !in s.core.queue && t in s.core.taken
    ensures var (u, code) := CancelByHandle(TakenOff(s), s.core.cmds[t].handle);
            && (code == Ok <==> Pending(s, t)) && (code == NotFound <==> !Pending(s, t))
            && (!Pending(s, t) ==> u == TakenOff(s))
            && (forall k :: k in s.conns && t in s.conns[k].pending ==>
                  && t in TakenOff(s).core.cmds && Finishes(TakenOff(s).core, u.core, {t})
                  && u == TakenOff(s).(core := u.core, conns := s.conns[k := s.conns[k].(pending := s.conns[k].pending - {t})]))
  {
    var h := s.core.cmds[t].handle;
    var p := TakenOff(s);
    NotQueued(s, c, t);
    ConnsMatchingIsHolder(s, t);
    PendingOnOne(s, t);
    TakenOffLooksTheSame(s, h);
    PoppedReady(s);
    if Pending(s, t) {
      var k := Least(PendingOn(s, t));
      MatchingIsTarget(s, t, k);
      hide Inv, Good, NoAlias, Finishes, Matching, ConnsMatching, Ready, CancelCommand, Delete;
      FinishPendingKeeps(p, k, t, {c});
      CancelByHandleFinishes(p, h, k, t);
      assert forall j :: j in s.conns && t in s.conns[j].pending ==> j in PendingOn(s, t);
    } else {
      assert PendingOn(s, t) == {};
    }
  }

  lemma CancelByHandleFinishes(s: State, h: Uint32, k: Id, t: Id)
    requires k in ConnsMatching(s, h) && k == Least(ConnsMatching(s, h)) && Matching(s, k, h) == {t}
    ensures CancelByHandle(s, h) == (FinishPending(s, k, t), Ok)
  {
    hide CancelCommand, Delete;
  }

  lemma NotQueued(s: State, c: Id, t: Id)
    requires Good(s) && s.core.queue != [] && s.core.queue[0] == c
    requires c in s.core.cmds && t in s.core.cmds && 0 < s.core.cmds[t].serial < s.core.cmds[c].serial
    ensures t !in s.core.queue && t in s.core.taken
  {
    if t in s.core.queue {
      QueuedMeansLater(s, c, t);
    }
    GoodCmd(s, t);
  }

  /** Without the condition on aliases a handle can hit a stranger: a cancelling command reports its
      target as found exactly when some pending command was accepted a whole number of handle periods
      away from it, be it the target itself. */
  lemma StaleHandleHitsAliases(s: State, t: Id)
    requires Good(s) && s.core.queue != [] && s.core.pipe > 0 && t in s.core.cmds && s.core.cmds[t].serial > 0
    ensures CancelByHandle(TakenOff(s), s.core.cmds[t].handle).1 == Ok <==>
              exists d :: d in s.core.cmds && Pending(s, d) && (s.core.cmds[d].serial - s.core.cmds[t].serial) % PERIOD == 0
  {
    hide CancelCommand, Delete, Good, Matching, ConnsMatching, Pending;
    var h := s.core.cmds[t].handle;
    TakenOffLooksTheSame(s, h);
    if ConnsMatching(s, h) != {} {
      var k := Least(ConnsMatching(s, h));
      var d := Least(Matching(s, k, h));
      PendingOnIsPending(s, k, d);
      AliasIffPeriods(s, t, d);
    }
    if d :| d in s.core.cmds && Pending(s, d) && (s.core.cmds[d].serial - s.core.cmds[t].serial) % PERIOD == 0 {
      AliasIffPeriods(s, t, d);
      PendingMatches(s, d);
    }
  }

  lemma PendingOnIsPending(s: State, k: Id, d: Id)
    requires k in s.conns && d in s.conns[k].pending
    ensures Pending(s, d)
  {
  }

  lemma PendingMatches(s: State, d: Id)
    requires Pending(s, d) && d in s.core.cmds
    ensures ConnsMatching(s, s.core.cmds[d].handle) != {}
  {
    var k :| k in s.conns && d in s.conns[k].pending;
    assert d in Matching(s, k, s.core.cmds[d].handle);
    assert k in ConnsMatching(s, s.core.cmds[d].handle);
  }

  lemma HandleOfSerial(s: State, d: Id)
    requires Good(s) && d in s.core.cmds
    ensures s.core.cmds[d].handle == HandleAt(s.core.cmds[d].serial)
    ensures Pending(s, d) ==> s.core.cmds[d].serial > 0
  {
    GoodCmd(s, d);
  }

  lemma AliasIffPeriods(s: State, t: Id, d: Id)
    requires Good(s) && t in s.core.cmds && s.core.cmds[t].serial > 0 && d in s.core.cmds && Pending(s, d)
    ensures s.core.cmds[d].handle == s.core.cmds[t].handle <==>
              (s.core.cmds[d].serial - s.core.cmds[t].serial) % PERIOD == 0
  {
    hide Good;
    HandleOfSerial(s, t);
    HandleOfSerial(s, d);
    NthHandle(s.core.cmds[d].serial);
    NthHandle(s.core.cmds[t].serial);
    HandlesCollide(s.core.cmds[d].serial, s.core.cmds[t].serial);
  }
}
