/** What a reply that the library cannot use leaves behind, and what comes of it later. */
module UnusableReplies {
  import opened Commands
  import opened Wrappers
  import opened Connections
  import opened Invariant
  import opened Preconditions
  import opened Progress
  import opened Outcomes
  import opened Removals

  lemma UnreadLeaves(s: State, c: Id, kind: Kind)
    requires IsLive(s.core, c) && c < s.core.nextId
    ensures var t := UnreadReply(s, c, kind);
            && History(t.core, c) == History(s.core, c) + [Outcome(Internal, None)] && t.conns == s.conns
            && (c in t.core.live <==> !DeletesUnread(kind))
  {
    hide Deliver, Complete;
    DeliveredHistory(s, c, Outcome(Internal, None));
    CompleteSpares(s.core, c, Outcome(Internal, None), c);
    DeliverIsComplete(s, c, Outcome(Internal, None));
  }

  lemma DeliverIsComplete(s: State, c: Id, outcome: Outcome)
    ensures Deliver(s, c, outcome) == s.(core := Complete(s.core, c, outcome))
  {
    hide Complete;
  }

  /** A reply that could not be stolen, or a connection found closed: the command has been told of an
      internal error, and stays in the pending set, deleted if its family deletes it and otherwise alive. */
  lemma UnreadReplyStaysPending(s: State, c: Id, k: Id, reply: Reply, connected: bool)
    requires Inv(s, {}) && k in s.conns && c in s.conns[k].pending && c in s.core.cmds
    requires var kind := KindOf(s.core, c);
             reply.NullReply? || ((kind.Subscribe? || kind.SubscribeOwnerChanged? || kind.RegisterService?) && !connected)
    ensures var t, kind := Notify(s, c, reply, connected), KindOf(s.core, c);
            && History(t.core, c) == [Outcome(Internal, None)] && t.conns == s.conns
            && (c !in t.core.live <==> kind.Subscribe? || kind.SubscribeOwnerChanged? || kind.Invoke?)
            && t == UnreadReply(s.(core := SetCall(s.core, c, Stolen)), c, KindOf(s.core, c))
  {
    hide Inv, NotifyReadsFreed, UnreadReply, Target, ReplyAction, Dispose;
    ParkedFacts(s, c, k);
    UnreadLeaves(s.(core := SetCall(s.core, c, Stolen)), c, KindOf(s.core, c));
    assert [] + [Outcome(Internal, None)] == [Outcome(Internal, None)];
  }

  /** A reply that is neither an error nor a method return: the command is gone, and was told nothing. */
  lemma OtherReplyIsSilent(s: State, c: Id, k: Id, connected: bool)
    requires Inv(s, {}) && k in s.conns && c in s.conns[k].pending && c in s.core.cmds
    requires CreatesObject(KindOf(s.core, c)) ==> connected
    ensures var t := Notify(s, c, OtherReply, connected);
            History(t.core, c) == [] && c !in t.core.live && k in t.conns && c !in t.conns[k].pending
  {
    ParkedFacts(s, c, k);
    hide Inv, Complete, Target, NotifyReadsFreed, ReplyAction;
    var u := s.(core := SetCall(s.core, c, Stolen));
    OtherReplyDoesNothing(u, c, k);
    assert Notify(s, c, OtherReply, connected) == Dispose(UnregisterPending(u, k, c), c);
  }

  // ----- the connection goes later -----

  lemma CancelSpares(a: Core, c: Id, x: Id)
    requires IsLive(a, c) && c < a.nextId && x < a.nextId && x != c
    ensures var b := Delete(CancelCommand(a, c), c);
            && b.fault == a.fault && a.nextId <= b.nextId
            && (IsLive(a, x) ==> IsLive(b, x)) && (x !in a.live ==> x !in b.live)
  {
    var d := SetCall(a, c, CancelledCall(CallOf(a, c)));
    hide Complete, SetCall;
    SetCallOnly(a, c, CancelledCall(CallOf(a, c)));
    CompleteSpares(a, c, Outcome(Cancelled, None), x);
    CompleteSpares(a, c, Outcome(Cancelled, None), c);
    CompleteSpares(d, c, Outcome(Cancelled, None), x);
    CompleteSpares(d, c, Outcome(Cancelled, None), c);
  }

  lemma SetCallOnly(a: Core, c: Id, call: Call)
    ensures SetCall(a, c, call) == a.(calls := SetCall(a, c, call).calls)
  {
  }

  lemma DeadFaults(a: Core, c: Id)
    requires !IsLive(a, c)
    ensures Delete(CancelCommand(a, c), c).fault
  {
  }

  lemma OwnFault(a: Core, c: Id)
    requires IsLive(a, c) && c < a.nextId
    ensures Delete(CancelCommand(a, c), c).fault == a.fault
  {
    hide Complete, SetCall;
    var d := SetCall(a, c, CancelledCall(CallOf(a, c)));
    SetCallOnly(a, c, CancelledCall(CallOf(a, c)));
    CompleteSpares(a, c, Outcome(Cancelled, None), c);
    CompleteSpares(d, c, Outcome(Cancelled, None), c);
  }

  lemma OtherSurvives(a: Core, c: Id, x: Id)
    requires c < a.nextId && c in a.cmds && x != c && x < a.nextId && x in a.cmds
    ensures var b := Delete(CancelCommand(a, c), c); x < b.nextId && x in b.cmds && (x in b.live <==> x in a.live)
  {
    hide CancelCommand, Delete;
    FinishSteady(a, c);
    assert CmdProgress(a, Delete(CancelCommand(a, c), c), x);
    if c in a.live {
      CancelSpares(a, c, x);
    } else {
      DeadChangesNothing(a, c);
    }
  }

  lemma DeadChangesNothing(a: Core, c: Id)
    requires !IsLive(a, c)
    ensures Delete(CancelCommand(a, c), c) == Fault(a)
  {
  }

  lemma OneFaultsIff(a: Core, c: Id, rest: set<Id>)
    requires c < a.nextId && c in a.cmds && c !in rest && forall x :: x in rest ==> x < a.nextId && x in a.cmds
    ensures var b := Delete(CancelCommand(a, c), c);
            && (forall x :: x in rest ==> x < b.nextId && x in b.cmds && (x in b.live <==> x in a.live))
            && (c in a.live ==> b.fault == a.fault) && (c !in a.live ==> b.fault)
  {
    hide CancelCommand, Delete, Steady;
    if c in a.live {
      OwnFault(a, c);
    } else {
      DeadFaults(a, c);
    }
    forall x | x in rest
      ensures var b := Delete(CancelCommand(a, c), c); x < b.nextId && x in b.cmds && (x in b.live <==> x in a.live)
    {
      OtherSurvives(a, c, x);
    }
  }

  /** Cancelling a pending set touches a deleted command if and only if there is one in it. */
  lemma {:induction false} CancelAllFaultsIff(a: Core, pending: set<Id>)
    requires forall x :: x in pending ==> x < a.nextId && x in a.cmds
    ensures CancelAll(a, pending).fault <==> a.fault || exists x :: x in pending && x !in a.live
    decreases pending
  {
    hide CancelCommand, Delete;
    if pending != {} {
      var c := Least(pending);
      OneFaultsIff(a, c, pending - {c});
      CancelAllFaultsIff(Delete(CancelCommand(a, c), c), pending - {c});
    }
  }

  lemma UnreadKeepsOthers(s: State, c: Id, kind: Kind, x: Id)
    requires IsLive(s.core, c) && c < s.core.nextId && IsLive(s.core, x) && x < s.core.nextId && x != c
    ensures var t := UnreadReply(s, c, kind);
            IsLive(t.core, x) && x < t.core.nextId && t.refs == s.refs && t.core.fault == s.core.fault
            && c in t.core.cmds && c < t.core.nextId
  {
    UnreadKeepsSelf(s, c, kind);
    hide Complete, Deliver;
    DeliverIsComplete(s, c, Outcome(Internal, None));
    CompleteSpares(s.core, c, Outcome(Internal, None), x);
  }

  lemma UnreadKeepsSelf(s: State, c: Id, kind: Kind)
    requires IsLive(s.core, c) && c < s.core.nextId
    ensures var t := UnreadReply(s, c, kind);
            t.refs == s.refs && t.core.fault == s.core.fault && c in t.core.cmds && c < t.core.nextId
  {
    hide Complete, Deliver;
    DeliverIsComplete(s, c, Outcome(Internal, None));
    CompleteSpares(s.core, c, Outcome(Internal, None), c);
  }

  lemma LastReleaseFaultsIff(t: State, k: Id)
    requires k in t.conns && t.conns[k].refCount == 1 && RefsOn(t.refs, t.conns[k].dbus) > 0 && CountsPositive(t) && !t.core.fault
    requires forall x :: x in t.conns[k].pending ==> x < t.core.nextId && x in t.core.cmds
    ensures Release(t, k).core.fault <==> exists x :: x in t.conns[k].pending && x !in t.core.live
  {
    CancelAllFaultsIff(t.core, t.conns[k].pending);
    hide CancelAll;
  }

  /** After a reply that could not be read, giving up the last reference on the connection cancels all
      that is pending there, and so touches the command again: this faults if and only if the command is
      of a family that has deleted it. */
  lemma ReleaseAfterUnreadFaultsIff(s: State, c: Id, k: Id, reply: Reply, connected: bool)
    requires Inv(s, {}) && k in s.conns && c in s.conns[k].pending && c in s.core.cmds
    requires CannotRead(KindOf(s.core, c), reply, connected) && s.conns[k].refCount == 1
    ensures CountsPositive(Notify(s, c, reply, connected))
    ensures var kind := KindOf(s.core, c);
            Release(Notify(s, c, reply, connected), k).core.fault <==> kind.Subscribe? || kind.SubscribeOwnerChanged? || kind.Invoke?
  {
    InvCounts(s, {});
    RefsHeld(s, k);
    ParkedFacts(s, c, k);
    UnreadReplyStaysPending(s, c, k, reply, connected);
    hide Inv, Notify, UnreadReply, Release, SetCall;
    var u := s.(core := SetCall(s.core, c, Stolen));
    SetCallOnly(s.core, c, Stolen);
    UnreadKeepsSelf(u, c, KindOf(s.core, c));
    forall x | x in s.conns[k].pending && x != c
      ensures var t := Notify(s, c, reply, connected); x in t.core.live && x < t.core.nextId && x in t.core.cmds
    {
      ParkedFacts(s, x, k);
      UnreadKeepsOthers(u, c, KindOf(s.core, c), x);
    }
    LastReleaseFaultsIff(Notify(s, c, reply, connected), k);
  }

  lemma RefsHeld(s: State, k: Id)
    requires Inv(s, {}) && k in s.conns
    ensures RefsOn(s.refs, s.conns[k].dbus) == s.conns[k].refCount && !s.core.fault
  {
  }
}
