/** Exactly which replies and which requests the library copes with. */
module Preconditions {
  import opened Commands
  import opened Wrappers
  import opened Connections
  import opened CoreInvariant
  import opened Invariant
  import opened Execution
  import opened Progress
  import opened Replies
  import opened Runs
  import opened Guarantees

  // ----- replies -----

  lemma ParkedFacts(s: State, c: Id, k: Id)
    requires Inv(s, {}) && k in s.conns && c in s.conns[k].pending
    ensures c in s.core.cmds && IsLive(s.core, c) && !NotifyReadsFreed(s.core, c)
    ensures Target(s.core, KindOf(s.core, c)) == Some(k) && MayPark(KindOf(s.core, c))
    ensures History(s.core, c) == [] && s.core.cmds[c].serial > 0 && c < s.core.nextId
  {
    PendingFacts(s, c, k);
    var p, q := ParkedSet(s.core, s.conns), AttachedSet(s.core, s.conns);
    assert c in p;
    assert CmdOk(s.core, p, q, {}, c);
  }

  lemma DeletedFacts(s: State, c: Id)
    requires Inv(s, {}) && c in s.core.cmds && c !in s.core.live && s.core.cmds[c].serial > 0
    ensures MayPark(KindOf(s.core, c)) ==> |History(s.core, c)| == 1
  {
    assert CmdOk(s.core, ParkedSet(s.core, s.conns), AttachedSet(s.core, s.conns), {}, c);
  }

  lemma CompletionIsRecorded(a: Core, c: Id, outcome: Outcome)
    requires IsLive(a, c) && c < a.nextId
    ensures History(Complete(a, c, outcome), c) != []
  {
    var b := a.(history := a.history[c := History(a, c) + [outcome]]);
    hide SubmitAll;
    SubmitAllSteady(b, CallbackOf(a.cmds[c].request));
    assert CmdProgress(b, Complete(a, c, outcome), c);
  }

  lemma UnreadReplyLeaves(s: State, c: Id, kind: Kind)
    requires IsLive(s.core, c) && c < s.core.nextId
    ensures var t := UnreadReply(s, c, kind);
            t.conns == s.conns && !(IsLive(t.core, c) && History(t.core, c) == [])
  {
    hide Complete;
    CompletionIsRecorded(s.core, c, Outcome(Internal, None));
  }

  /** A reply that could not be stolen, or a connection found closed: the command has been completed
      but stays in the pending set, deleted or not. */
  lemma UnreadReplyBreaks(s: State, c: Id, k: Id, reply: Reply, connected: bool)
    requires Inv(s, {}) && k in s.conns && c in s.conns[k].pending && c in s.core.cmds
    requires CannotRead(KindOf(s.core, c), reply, connected)
    ensures !Inv(Notify(s, c, reply, connected), {})
  {
    hide Inv, NotifyReadsFreed, UnreadReply, Target, ReplyAction, Dispose;
    ParkedFacts(s, c, k);
    var t := Notify(s, c, reply, connected);
    UnreadReplyLeaves(s.(core := SetCall(s.core, c, Stolen)), c, KindOf(s.core, c));
    if Inv(t, {}) {
      ParkedFacts(t, c, k);
    }
  }

  lemma OtherReplyDoesNothing(s: State, c: Id, k: Id)
    requires c in s.core.cmds
    ensures ReplyAction(s, c, k, OtherReply) == s
  {
  }

  /** A reply that is neither an error nor a method return: the command is deleted in silence. */
  lemma OtherReplyBreaks(s: State, c: Id, k: Id, connected: bool)
    requires Inv(s, {}) && k in s.conns && c in s.conns[k].pending && c in s.core.cmds
    requires CreatesObject(KindOf(s.core, c)) ==> connected
    ensures !Inv(Notify(s, c, OtherReply, connected), {})
  {
    ParkedFacts(s, c, k);
    hide Inv, Complete, Target, NotifyReadsFreed, ReplyAction;
    var u := s.(core := SetCall(s.core, c, Stolen));
    OtherReplyDoesNothing(u, c, k);
    var t := Notify(s, c, OtherReply, connected);
    assert t == Dispose(UnregisterPending(u, k, c), c);
    if Inv(t, {}) {
      DeletedFacts(t, c);
    }
  }

  /** A notification for a pending command keeps the invariant if and only if its reply is an error
      or a method return, received while the connection was up where the family looks at that. */
  lemma NotifyKeepsIffUsable(s: State, c: Id, k: Id, reply: Reply, connected: bool)
    requires Inv(s, {}) && k in s.conns && c in s.conns[k].pending && c in s.core.cmds
    ensures Inv(Notify(s, c, reply, connected), {}) <==> Usable(KindOf(s.core, c), reply, connected)
  {
    hide Inv, Notify;
    if Usable(KindOf(s.core, c), reply, connected) {
      UsableReplyKeeps(s, c, k, reply, connected);
    } else if CannotRead(KindOf(s.core, c), reply, connected) {
      UnreadReplyBreaks(s, c, k, reply, connected);
    } else {
      OtherReplyBreaks(s, c, k, connected);
    }
  }

  /** A notification touches freed memory if and only if its command is no longer pending, which
      takes an owner-changed subscription that was cancelled before its reply came. */
  lemma NotifyFaultsIffDeleted(s: State, c: Id, reply: Reply, connected: bool)
    requires Good(s) && c in s.core.cmds && CanNotify(CallOf(s.core, c))
    requires Usable(KindOf(s.core, c), reply, connected)
    ensures Notify(s, c, reply, connected).core.fault <==> !Pending(s, c)
    ensures !Pending(s, c) ==> KindOf(s.core, c).SubscribeOwnerChanged? && c !in s.core.live
  {
    GoodCmd(s, c);
    hide Inv, Notify;
    if Pending(s, c) {
      var k :| k in s.conns && c in s.conns[k].pending;
      UsableReplyKeeps(s, c, k, reply, connected);
      InvHasNoFault(Notify(s, c, reply, connected));
    } else {
      LateNotifyFaults(s, c, reply, connected);
    }
  }

  lemma LateNotifyFaults(s: State, c: Id, reply: Reply, connected: bool)
    requires c !in s.core.live
    ensures Notify(s, c, reply, connected).core.fault
  {
  }

  lemma InvHasNoFault(s: State)
    requires Inv(s, {})
    ensures !s.core.fault
  {
  }

  // ----- subscriptions and registrations -----

  /** The command that created the object still holds on to it. */
  predicate StillHeld(s: State, i: Id) {
    IsLive(s.core, i) && s.core.cmds[i].owns
  }

  function OwningConns(s: State, i: Id): set<Id> {
    set k | k in s.conns && (i in s.conns[k].subs || i in s.conns[k].regs)
  }

  lemma OwnerIsNamed(s: State, i: Id, k: Id, hand: set<Id>)
    requires Inv(s, hand) && k in OwningConns(s, i)
    ensures i in s.core.cmds && CreatesObject(KindOf(s.core, i)) && KindOf(s.core, i).conn == k
  {
    assert ConnOk(s.core, k, s.conns[k]);
  }

  /** Each subscription or registration that exists belongs either to the command that is creating
      it or to the one connection it names; one that has been freed belongs to nobody. */
  lemma ObjectHasOneOwner(steps: seq<Step>, i: Id)
    requires Run(INITIAL, steps)
    ensures var s := After(INITIAL, steps);
            && (i !in s.core.objs ==> !StillHeld(s, i) && OwningConns(s, i) == {})
            && (i in s.core.objs ==>
                  && i in s.core.cmds && CreatesObject(KindOf(s.core, i))
                  && OwningConns(s, i) == if StillHeld(s, i) then {} else {KindOf(s.core, i).conn})
  {
    ReachableIsGood(steps);
    hide Run, After;
    OneOwner(After(INITIAL, steps), i, {});
  }

  lemma OneOwner(s: State, i: Id, hand: set<Id>)
    requires Inv(s, hand)
    ensures i !in s.core.objs ==> !StillHeld(s, i) && OwningConns(s, i) == {}
    ensures i in s.core.objs ==>
              && i in s.core.cmds && CreatesObject(KindOf(s.core, i))
              && OwningConns(s, i) == if StillHeld(s, i) then {} else {KindOf(s.core, i).conn}
  {
    AttachedMeansOwned(s.core, s.conns, i);
    if i in s.core.cmds {
      assert CmdOk(s.core, ParkedSet(s.core, s.conns), AttachedSet(s.core, s.conns), hand, i);
    }
    hide LinksOk, RefsOk;
    forall k | k in OwningConns(s, i) ensures i in s.core.cmds && CreatesObject(KindOf(s.core, i)) && KindOf(s.core, i).conn == k {
      OwnerIsNamed(s, i, k, hand);
    }
  }

  /** A pending removal names an object still in the set of its own connection. */
  lemma PendingRemovalFindsObject(steps: seq<Step>, c: Id, k: Id, i: Id)
    requires Run(INITIAL, steps)
    requires var s := After(INITIAL, steps); k in s.conns && c in s.conns[k].pending && c in s.core.cmds
    ensures var s := After(INITIAL, steps);
            && (KindOf(s.core, c) == Unsubscribe(i) ==> i in s.conns[k].subs && i in s.core.objs)
            && (KindOf(s.core, c) == UnregisterService(i) ==> i in s.conns[k].regs && i in s.core.objs)
  {
    var s := After(INITIAL, steps);
    ReachableIsGood(steps);
    hide Run, After;
    PendingFacts(s, c, k);
  }

  predicate Removes(kind: Kind, i: Id) {
    kind == Unsubscribe(i) || kind == UnregisterService(i)
  }

  /** The look-up that a removing command begins with. */
  predicate LooksUp(s: State, kind: Kind, i: Id) {
    if kind.Unsubscribe? then SubscriptionExists(s, i) else ServiceExists(s, i)
  }

  /** The object is one that a command of this kind may name. */
  predicate MayName(a: Core, kind: Kind, i: Id)
    requires i in a.cmds
  {
    if kind.Unsubscribe? then CreatesSubscription(KindOf(a, i)) else KindOf(a, i).RegisterService?
  }

  /** The look-up succeeds exactly for an object of the right kind that has been handed over to a
      connection and not been freed. */
  lemma LookUpFindsLiveObjects(s: State, kind: Kind, i: Id, hand: set<Id>)
    requires Inv(s, hand) && Removes(kind, i)
    ensures LooksUp(s, kind, i) <==> i in s.core.objs && i in s.core.cmds && MayName(s.core, kind, i) && !StillHeld(s, i)
  {
    if LooksUp(s, kind, i) {
      FoundObject(s, i, hand);
      FoundKind(s, i, hand);
    }
    OneOwner(s, i, hand);
    hide Inv;
    if i in s.core.objs && i in s.core.cmds && MayName(s.core, kind, i) && !StillHeld(s, i) {
      assert KindOf(s.core, i).conn in OwningConns(s, i);
      NamedIsInSet(s, kind, i, hand);
    }
  }

  lemma NamedIsInSet(s: State, kind: Kind, i: Id, hand: set<Id>)
    requires Inv(s, hand) && i in s.core.cmds && CreatesObject(KindOf(s.core, i)) && MayName(s.core, kind, i)
    requires KindOf(s.core, i).conn in OwningConns(s, i)
    ensures LooksUp(s, kind, i)
  {
    assert ConnOk(s.core, KindOf(s.core, i).conn, s.conns[KindOf(s.core, i).conn]);
  }

  /** Executing an unsubscription or unregistration reads the object it names exactly when that object
      has been handed over to a connection and not been freed; any other handle is answered with
      not-found, without being looked into. */
  lemma StaleHandleIsNotFound(s: State, c: Id, i: Id, answer: Answer)
    requires Good(s) && s.core.queue != [] && s.core.pipe > 0 && s.core.queue[0] == c && c in s.core.cmds
    requires Removes(KindOf(s.core, c), i)
    ensures CountsPositive(TakenOff(s))
    ensures var p, kind := TakenOff(s), KindOf(s.core, c);
            && (LooksUp(p, kind, i) <==> i in p.core.objs && i in p.core.cmds && MayName(p.core, kind, i) && !StillHeld(p, i))
            && (!LooksUp(p, kind, i) ==> Execute(p, c, answer) == Fail(p, c, NotFound))
  {
    PoppedReady(s);
    hide Inv, Good;
    LookUpFindsLiveObjects(TakenOff(s), KindOf(s.core, c), i, {c});
  }

  /** Emitting a signal reads the registration without looking it up: it goes wrong exactly when
      the registration no longer exists. */
  lemma EmitFaultsIffStale(s: State, c: Id, i: Id, answer: Answer)
    requires Good(s) && s.core.queue != [] && s.core.queue[0] == c && c in s.core.cmds
    requires KindOf(s.core, c) == Emit(Some(i))
    ensures s.core.pipe > 0 && CountsPositive(s)
    ensures ExecuteFront(s, answer).core.fault <==> i !in s.core.objs
  {
    InvCounts(s, {});
    hide Inv, Deliver, Delete;
    PoppedReady(s);
    if i in s.core.objs {
      EmitIsAllowed(s, c, i);
      TakeNextKeeps(s, answer);
      InvHasNoFault(ExecuteFront(s, answer));
    } else {
      FaultSteady(TakenOff(s).core);
    }
  }

  lemma EmitIsAllowed(s: State, c: Id, i: Id)
    requires s.core.queue != [] && s.core.queue[0] == c && c in s.core.cmds && s.core.pipe > 0
    requires KindOf(s.core, c) == Emit(Some(i)) && i in s.core.objs
    ensures ExecuteAllowed(TakenOff(s), c)
  {
  }
}
