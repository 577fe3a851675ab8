/** Two removals of the same subscription or registration waiting for their replies at the same time. */
module Removals {
  import opened Commands
  import opened Wrappers
  import opened Connections
  import opened Replies
  import opened Preconditions

  // ----- what one completion leaves alone -----

  /** Seen from command or object `x`, and as far as faults go, nothing has happened. */
  ghost predicate Spares(a: Core, b: Core, x: Id) {
    && (x in b.live <==> x in a.live) && (x in b.objs <==> x in a.objs)
    && (x in a.cmds ==> x in b.cmds && b.cmds[x].request == a.cmds[x].request && b.cmds[x].owns == a.cmds[x].owns)
    && b.fault == a.fault && a.nextId <= b.nextId
  }

  lemma SubmissionSpares(a: Core, submission: Submission, x: Id)
    requires x < a.nextId
    ensures Spares(a, Submit(Build(a, submission.request), a.nextId, submission.wrote), x)
  {
  }

  lemma {:induction false} SubmitAllSpares(a: Core, submissions: seq<Submission>, x: Id)
    requires x < a.nextId
    ensures Spares(a, SubmitAll(a, submissions), x)
    decreases |submissions|
  {
    if submissions != [] {
      SubmissionSpares(a, submissions[0], x);
      hide Submit, Build;
      SubmitAllSpares(Submit(Build(a, submissions[0].request), a.nextId, submissions[0].wrote), submissions[1..], x);
    }
  }

  lemma CompleteSpares(a: Core, c: Id, outcome: Outcome, x: Id)
    requires IsLive(a, c) && x < a.nextId
    ensures Spares(a, Complete(a, c, outcome), x)
  {
    hide SubmitAll;
    SubmitAllSpares(a.(history := a.history[c := History(a, c) + [outcome]]), CallbackOf(a.cmds[c].request), x);
  }

  // ----- one removal answered -----

  function SetOf(conn: Conn, kind: Kind): set<Id> {
    if kind.Unsubscribe? then conn.subs else conn.regs
  }

  /** The command is parked on `k`, and removes the object `i`, which is still there. */
  ghost predicate ParkedRemoval(s: State, c: Id, k: Id, i: Id) {
    && IsLive(s.core, c) && c < s.core.nextId && Removes(KindOf(s.core, c), i)
    && Target(s.core, KindOf(s.core, c)) == Some(k) && k in s.conns && c in s.conns[k].pending
    && i in s.core.objs && i < s.core.nextId && i in SetOf(s.conns[k], KindOf(s.core, c))
    && !s.core.cmds[c].owns && !s.core.fault
  }

  /** Both wait for their replies, and remove the same object. */
  ghost predicate BothParked(s: State, c: Id, d: Id, k: Id, i: Id) {
    c != d && ParkedRemoval(s, c, k, i) && ParkedRemoval(s, d, k, i) && KindOf(s.core, c) == KindOf(s.core, d)
  }

  /** The connection a removal leaves behind, but for the pending set. */
  function Reduced(conn: Conn, kind: Kind, i: Id, reply: Reply): Conn {
    if reply.ReturnReply? then WithoutObject(conn, kind, i) else conn
  }

  function Reported(reply: Reply): Outcome {
    Outcome(if reply.ReturnReply? then Ok else DBusError, None)
  }

  /** The commands just before the removal is completed. */
  function Freed(a: Core, c: Id, i: Id, reply: Reply): Core {
    var b := SetCall(a, c, Stolen);
    if reply.ReturnReply? then b.(objs := b.objs - {i}) else b
  }

  lemma RemovalActs(s: State, c: Id, k: Id, i: Id, reply: Reply)
    requires ParkedRemoval(s, c, k, i) && (reply.ErrorReply? || reply.ReturnReply?)
    ensures var u := s.(core := SetCall(s.core, c, Stolen));
            ReplyAction(u, c, k, reply)
            == s.(core := Complete(Freed(s.core, c, i, reply), c, Reported(reply)),
                  conns := s.conns[k := Reduced(s.conns[k], KindOf(s.core, c), i, reply)])
  {
    hide Complete, Target;
    assert s.conns[k := s.conns[k]] == s.conns;
  }

  lemma RemovalReads(s: State, c: Id, k: Id, i: Id, reply: Reply, connected: bool)
    requires ParkedRemoval(s, c, k, i) && (reply.ErrorReply? || reply.ReturnReply?)
    ensures var u := s.(core := SetCall(s.core, c, Stolen));
            Notify(s, c, reply, connected) == Dispose(UnregisterPending(ReplyAction(u, c, k, reply), k, c), c)
  {
    hide ReplyAction, Target, UnregisterPending, Dispose;
  }

  /** What one removal, answered, does to everything else. */
  lemma RemovalNotified(s: State, c: Id, k: Id, i: Id, reply: Reply, connected: bool, x: Id)
    requires ParkedRemoval(s, c, k, i) && (reply.ErrorReply? || reply.ReturnReply?) && x < s.core.nextId && x != c
    ensures var t := Notify(s, c, reply, connected);
            && Spares(Freed(s.core, c, i, reply), t.core, x)
            && t.conns == s.conns[k := Reduced(s.conns[k], KindOf(s.core, c), i, reply).(pending := s.conns[k].pending - {c})]
  {
    hide Complete, Notify, ReplyAction, Target, Removes;
    RemovalReads(s, c, k, i, reply, connected);
    RemovalActs(s, c, k, i, reply);
    var a := Freed(s.core, c, i, reply);
    CompleteSpares(a, c, Reported(reply), x);
    CompleteSpares(a, c, Reported(reply), c);
    RemovalEnds(s, Complete(a, c, Reported(reply)), c, k, i, reply, x);
  }

  /** Taking the command out of the pending set, and deleting it. */
  lemma RemovalEnds(s: State, b: Core, c: Id, k: Id, i: Id, reply: Reply, x: Id)
    requires ParkedRemoval(s, c, k, i) && x != c && Spares(Freed(s.core, c, i, reply), b, x) && Spares(Freed(s.core, c, i, reply), b, c)
    ensures var conn := Reduced(s.conns[k], KindOf(s.core, c), i, reply);
            var t := Dispose(UnregisterPending(s.(core := b, conns := s.conns[k := conn]), k, c), c);
            && Spares(Freed(s.core, c, i, reply), t.core, x)
            && t.conns == s.conns[k := conn.(pending := s.conns[k].pending - {c})]
  {
    hide Target, Removes;
  }

  // ----- two removals answered -----

  /** An object that is gone is read all the same. */
  lemma ReadsTheObject(s: State, d: Id, i: Id, reply: Reply, connected: bool)
    requires d in s.core.cmds && Removes(KindOf(s.core, d), i) && i !in s.core.objs
    ensures Notify(s, d, reply, connected).core.fault
  {
    assert !IsLive(s.core, d) || NotifyReadsFreed(s.core, d);
    hide Target, ReplyAction, UnreadReply, Dispose, NotifyReadsFreed, UnregisterPending, CannotRead, Removes;
  }

  lemma TargetStays(a: Core, b: Core, kind: Kind, i: Id)
    requires Removes(kind, i) && i in a.cmds && i in b.cmds && b.cmds[i].request == a.cmds[i].request
    ensures Target(b, kind) == Target(a, kind)
  {
  }

  /** A first removal that was refused leaves the second as it was. */
  lemma RefusalKeepsOther(s: State, c: Id, d: Id, k: Id, i: Id, connected: bool)
    requires BothParked(s, c, d, k, i)
    ensures ParkedRemoval(Notify(s, c, ErrorReply, connected), d, k, i)
  {
    RemovalNotified(s, c, k, i, ErrorReply, connected, d);
    RemovalNotified(s, c, k, i, ErrorReply, connected, i);
    hide Notify;
    TargetStays(s.core, Notify(s, c, ErrorReply, connected).core, KindOf(s.core, d), i);
  }

  /** With two removals of one object waiting, and replies that each can use, the handler of the second
      reads freed memory if and only if the first was answered by a method return, which frees the
      object. */
  lemma SecondRemovalFaultsIff(s: State, c: Id, d: Id, k: Id, i: Id, reply: Reply, reply': Reply, connected: bool, connected': bool)
    requires BothParked(s, c, d, k, i)
    requires Usable(KindOf(s.core, c), reply, connected) && Usable(KindOf(s.core, d), reply', connected')
    ensures Notify(Notify(s, c, reply, connected), d, reply', connected').core.fault <==> reply.ReturnReply?
  {
    RemovalNotified(s, c, k, i, reply, connected, d);
    RemovalNotified(s, c, k, i, reply, connected, i);
    hide Notify;
    var t := Notify(s, c, reply, connected);
    if reply.ReturnReply? {
      ReadsTheObject(t, d, i, reply', connected');
    } else {
      RefusalKeepsOther(s, c, d, k, i, connected);
      RemovalNotified(t, d, k, i, reply', connected', c);
    }
  }
}
