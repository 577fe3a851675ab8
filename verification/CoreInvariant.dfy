/** What the queue, the command objects, their pending calls and their completions keep. */
module CoreInvariant {
  import opened Handles
  import opened Commands
  import opened Wrappers

  /** Every identity in use belongs to a command that was built. */
  ghost predicate RecordsOk(a: Core, parked: set<Id>, attached: set<Id>, hand: set<Id>) {
    && (forall c :: c in a.cmds ==> c < a.nextId)
    && a.live <= a.cmds.Keys && a.objs <= a.cmds.Keys && a.held <= a.cmds.Keys
    && parked <= a.cmds.Keys && attached <= a.cmds.Keys && hand <= a.cmds.Keys
    && (forall c :: c in a.queue ==> c in a.cmds)
    && (forall c :: c in a.accepted ==> c in a.cmds)
    && a.history.Keys <= a.cmds.Keys && a.calls.Keys <= a.cmds.Keys
  }

  /** Commands are taken off the queue in acceptance order; serials grow along that order. */
  ghost predicate OrderOk(a: Core)
    requires forall c :: c in a.accepted ==> c in a.cmds
  {
    && a.counter == HandleAt(a.issued)
    && a.accepted == a.taken + a.queue
    && (forall i, j :: 0 <= i < j < |a.accepted| ==> a.cmds[a.accepted[i]].serial < a.cmds[a.accepted[j]].serial)
  }

  /** A live command has exactly one holder: the client that built it, the queue, the pending set
      of a connection (`parked`), or the operation in progress (`hand`). */
  ghost predicate HolderOk(a: Core, parked: set<Id>, hand: set<Id>, c: Id) {
    && (c in a.live <==> c in a.held || c in a.queue || c in parked || c in hand)
    && (c in a.held ==> c !in a.queue && c !in parked && c !in hand)
    && (c in a.queue ==> c !in parked && c !in hand)
    && (c in parked ==> c !in hand)
  }

  ghost predicate SerialOk(a: Core, c: Id)
    requires c in a.cmds
  {
    var cmd := a.cmds[c];
    && cmd.serial <= a.issued && cmd.handle == HandleAt(cmd.serial)
    && (cmd.serial > 0 <==> c in a.accepted)
    && (c in a.live ==> (cmd.serial == 0 <==> c in a.held))
  }

  /** A command still held by somebody has not been completed; once deleted, it has been completed
      exactly once, unless it was refused or is one of those that may stay silent. */
  ghost predicate HistoryOk(a: Core, hand: set<Id>, c: Id)
    requires c in a.cmds
  {
    && |History(a, c)| <= 1
    && (c in a.live && c !in hand ==> History(a, c) == [])
    && (c !in a.live && a.cmds[c].serial == 0 ==> History(a, c) == [])
    && (c !in a.live && a.cmds[c].serial > 0 && !MayStaySilent(KindOf(a, c)) ==> |History(a, c)| == 1)
  }

  /** A pending call that can still notify belongs to a parked command, except for the calls that
      cancelled owner-changed subscriptions leave behind. */
  ghost predicate CallOk(a: Core, parked: set<Id>, hand: set<Id>, c: Id)
    requires c in a.cmds
  {
    && (c in parked ==> CanNotify(CallOf(a, c)) && a.cmds[c].keep && MayPark(KindOf(a, c)))
    && (CanNotify(CallOf(a, c)) && c !in parked && c !in hand ==>
          KindOf(a, c).SubscribeOwnerChanged? && c !in a.live)
    && (c in a.live && c !in parked && c !in hand ==> CallOf(a, c).NoCall? && !a.cmds[c].keep)
  }

  /** A live subscription or registration belongs either to the command that created it or to a
      connection (`attached`), never to both. */
  ghost predicate ObjectOk(a: Core, attached: set<Id>, c: Id)
    requires c in a.cmds
  {
    && (a.cmds[c].owns ==> CreatesObject(KindOf(a, c)))
    && (c in attached ==> !a.cmds[c].owns && CreatesObject(KindOf(a, c)))
    && (c in a.objs <==> (c in a.live && a.cmds[c].owns) || c in attached)
    && (c in a.live && CreatesObject(KindOf(a, c)) && History(a, c) == [] ==> a.cmds[c].owns)
  }

  ghost predicate CmdOk(a: Core, parked: set<Id>, attached: set<Id>, hand: set<Id>, c: Id)
    requires c in a.cmds
  {
    && HolderOk(a, parked, hand, c)
    && SerialOk(a, c)
    && HistoryOk(a, hand, c)
    && CallOk(a, parked, hand, c)
    && ObjectOk(a, attached, c)
  }

  ghost predicate CoreInv(a: Core, parked: set<Id>, attached: set<Id>, hand: set<Id>) {
    && RecordsOk(a, parked, attached, hand)
    && OrderOk(a)
    && (forall c :: c in a.cmds ==> CmdOk(a, parked, attached, hand, c))
    && !a.fault
  }

  /** Everything but the commands of `a` themselves: later states know more commands, the queue
      grows at its end, and the pipe grows with it. */
  ghost predicate Grows(a: Core, b: Core) {
    && a.nextId <= b.nextId
    && (forall c :: c in a.cmds ==> c in b.cmds && b.cmds[c] == a.cmds[c])
    && (forall c :: c in b.cmds && c !in a.cmds ==> c >= a.nextId)
    && b.running == a.running && b.quit == a.quit && b.fault == a.fault
    && b.taken == a.taken && a.queue <= b.queue
    && b.pipe - |b.queue| == a.pipe - |a.queue|
  }

  ghost predicate Untouched(a: Core, b: Core, c: Id) {
    && (c in b.live <==> c in a.live)
    && (c in b.objs <==> c in a.objs)
    && (c in b.held <==> c in a.held)
    && History(b, c) == History(a, c)
    && CallOf(b, c) == CallOf(a, c)
  }

  /** `b` is `a` after some more submissions. */
  ghost predicate Extends(a: Core, b: Core) {
    && Grows(a, b)
    && b.history == a.history && b.calls == a.calls
    && (forall c :: c in a.cmds ==> Untouched(a, b, c))
  }

  lemma GrowsTransitive(a: Core, b: Core, c: Core)
    requires Grows(a, b) && Grows(b, c)
    ensures Grows(a, c)
  {
    forall i | i in c.cmds && i !in a.cmds ensures i >= a.nextId {
      if i !in b.cmds {
        assert i >= b.nextId;
      }
    }
  }

  lemma ExtendsTransitive(a: Core, b: Core, c: Core)
    requires Extends(a, b) && Extends(b, c)
    ensures Extends(a, c)
  {
    GrowsTransitive(a, b, c);
    forall i | i in a.cmds ensures Untouched(a, c, i) {
      assert Untouched(a, b, i) && Untouched(b, c, i);
    }
  }

  lemma BuildKeepsCmd(a: Core, request: Request, parked: set<Id>, attached: set<Id>, hand: set<Id>, x: Id)
    requires x in a.cmds && x != a.nextId && CmdOk(a, parked, attached, hand, x)
    ensures CmdOk(Build(a, request), parked, attached, hand, x)
  {
  }

  lemma BuiltIsOk(a: Core, request: Request, parked: set<Id>, attached: set<Id>, hand: set<Id>)
    requires RecordsOk(a, parked, attached, hand)
    ensures CmdOk(Build(a, request), parked, attached, hand, a.nextId)
  {
    assert a.nextId !in a.cmds;
  }

  lemma BuildKeeps(a: Core, request: Request, parked: set<Id>, attached: set<Id>, hand: set<Id>)
    requires CoreInv(a, parked, attached, hand)
    ensures CoreInv(Build(a, request), parked, attached, hand)
    ensures a.nextId in Build(a, request).held
  {
    var b := Build(a, request);
    assert a.nextId !in a.cmds;
    assert RecordsOk(b, parked, attached, hand) && OrderOk(b);
    hide CmdOk;
    forall c | c in b.cmds ensures CmdOk(b, parked, attached, hand, c) {
      if c != a.nextId {
        BuildKeepsCmd(a, request, parked, attached, hand, c);
      } else {
        BuiltIsOk(a, request, parked, attached, hand);
      }
    }
  }

  lemma AcceptKeepsCmd(a: Core, c: Id, parked: set<Id>, attached: set<Id>, hand: set<Id>, x: Id)
    requires c in a.cmds && x in a.cmds && c in a.held
    requires a.counter == HandleAt(a.issued)
    requires CmdOk(a, parked, attached, hand, c) && CmdOk(a, parked, attached, hand, x)
    ensures CmdOk(Accept(a, c), parked, attached, hand, x)
  {
    var b := Accept(a, c);
    assert x in b.queue <==> x in a.queue || x == c;
    assert x in b.accepted <==> x in a.accepted || x == c;
    NextIsHandleAt(a.issued);
  }

  lemma AcceptKeepsOrder(a: Core, c: Id, parked: set<Id>, attached: set<Id>, hand: set<Id>)
    requires CoreInv(a, parked, attached, hand) && c in a.held
    ensures (forall x :: x in Accept(a, c).accepted ==> x in a.cmds) && OrderOk(Accept(a, c))
  {
    var b := Accept(a, c);
    NextIsHandleAt(a.issued);
    assert CmdOk(a, parked, attached, hand, c);
    assert b.accepted == b.taken + b.queue;
    forall i, j | 0 <= i < j < |b.accepted|
      ensures b.cmds[b.accepted[i]].serial < b.cmds[b.accepted[j]].serial
    {
      assert a.accepted[i] in a.accepted && CmdOk(a, parked, attached, hand, a.accepted[i]);
      if j < |a.accepted| {
        assert a.accepted[j] in a.accepted && CmdOk(a, parked, attached, hand, a.accepted[j]);
      }
    }
  }

  lemma AcceptKeeps(a: Core, c: Id, parked: set<Id>, attached: set<Id>, hand: set<Id>)
    requires CoreInv(a, parked, attached, hand) && c in a.held
    ensures CoreInv(Accept(a, c), parked, attached, hand)
  {
    AcceptKeepsOrder(a, c, parked, attached, hand);
    assert CmdOk(a, parked, attached, hand, c);
    forall x | x in Accept(a, c).cmds ensures CmdOk(Accept(a, c), parked, attached, hand, x) {
      AcceptKeepsCmd(a, c, parked, attached, hand, x);
    }
  }

  lemma DeleteKeeps(a: Core, c: Id, parked: set<Id>, attached: set<Id>, hand: set<Id>)
    requires CoreInv(a, parked, attached, hand) && c in hand
    requires MayStaySilent(KindOf(a, c)) || |History(a, c)| == 1
    requires CanNotify(CallOf(a, c)) ==> KindOf(a, c).SubscribeOwnerChanged?
    ensures CoreInv(Delete(a, c), parked, attached, hand - {c})
  {
    var b := Delete(a, c);
    assert CmdOk(a, parked, attached, hand, c);
    forall x | x in b.cmds ensures CmdOk(b, parked, attached, hand - {c}, x) {
      assert CmdOk(a, parked, attached, hand, x);
    }
  }

  lemma RefuseKeepsCmd(a: Core, c: Id, parked: set<Id>, attached: set<Id>, hand: set<Id>, x: Id)
    requires c in a.cmds && x in a.cmds && c in a.held
    requires CmdOk(a, parked, attached, hand, c) && CmdOk(a, parked, attached, hand, x)
    ensures CmdOk(Refuse(a, c), parked, attached, hand, x)
  {
  }

  /** A refused command is deleted by its submitter and leaves no trace but a used-up handle. */
  lemma RefuseKeeps(a: Core, c: Id, parked: set<Id>, attached: set<Id>, hand: set<Id>)
    requires CoreInv(a, parked, attached, hand) && c in a.held
    ensures CoreInv(Refuse(a, c), parked, attached, hand)
  {
    NextIsHandleAt(a.issued);
    assert CmdOk(a, parked, attached, hand, c);
    forall x | x in a.cmds ensures CmdOk(Refuse(a, c), parked, attached, hand, x) {
      RefuseKeepsCmd(a, c, parked, attached, hand, x);
    }
  }

  lemma SubmitKeeps(a: Core, c: Id, wrote: bool, parked: set<Id>, attached: set<Id>, hand: set<Id>)
    requires CoreInv(a, parked, attached, hand) && c in a.held
    ensures CoreInv(Submit(a, c, wrote), parked, attached, hand)
  {
    if a.running && wrote {
      AcceptKeeps(a, c, parked, attached, hand);
    } else {
      RefuseKeeps(a, c, parked, attached, hand);
    }
  }

  lemma SubmitNewGrows(a: Core, request: Request, wrote: bool)
    requires forall c :: c in a.cmds ==> c < a.nextId
    ensures Grows(a, Submit(Build(a, request), a.nextId, wrote))
  {
  }

  lemma SubmitNewUntouched(a: Core, request: Request, wrote: bool, c: Id)
    requires c < a.nextId
    ensures Untouched(a, Submit(Build(a, request), a.nextId, wrote), c)
  {
  }

  lemma SubmitNewExtends(a: Core, request: Request, wrote: bool)
    requires forall c :: c in a.cmds ==> c < a.nextId
    ensures Extends(a, Submit(Build(a, request), a.nextId, wrote))
  {
    hide Grows, Untouched;
    SubmitNewGrows(a, request, wrote);
    forall c | c in a.cmds ensures Untouched(a, Submit(Build(a, request), a.nextId, wrote), c) {
      SubmitNewUntouched(a, request, wrote, c);
    }
  }

  lemma {:induction false} SubmitAllKeeps(a: Core, submissions: seq<Submission>, parked: set<Id>, attached: set<Id>, hand: set<Id>)
    requires CoreInv(a, parked, attached, hand)
    ensures CoreInv(SubmitAll(a, submissions), parked, attached, hand)
    ensures Extends(a, SubmitAll(a, submissions))
    decreases |submissions|
  {
    if submissions != [] {
      var built := Build(a, submissions[0].request);
      BuildKeeps(a, submissions[0].request, parked, attached, hand);
      var b := Submit(built, a.nextId, submissions[0].wrote);
      SubmitKeeps(built, a.nextId, submissions[0].wrote, parked, attached, hand);
      SubmitNewExtends(a, submissions[0].request, submissions[0].wrote);
      SubmitAllKeeps(b, submissions[1..], parked, attached, hand);
      ExtendsTransitive(a, b, SubmitAll(b, submissions[1..]));
    }
  }

  lemma HandIsLive(a: Core, c: Id, parked: set<Id>, attached: set<Id>, hand: set<Id>)
    requires CoreInv(a, parked, attached, hand) && c in hand
    ensures IsLive(a, c)
  {
    assert CmdOk(a, parked, attached, hand, c);
  }

  lemma RecordOutcomeKeepsCmd(a: Core, c: Id, outcome: Outcome, parked: set<Id>, attached: set<Id>, hand: set<Id>, x: Id)
    requires c in a.live && c in hand && x in a.cmds
    requires CmdOk(a, parked, attached, hand, x)
    ensures CmdOk(a.(history := a.history[c := [outcome]]), parked, attached, hand, x)
  {
  }

  lemma RecordOutcomeKeeps(a: Core, c: Id, outcome: Outcome, parked: set<Id>, attached: set<Id>, hand: set<Id>)
    requires CoreInv(a, parked, attached, hand) && c in hand && History(a, c) == []
    ensures CoreInv(a.(history := a.history[c := [outcome]]), parked, attached, hand)
  {
    hide CmdOk;
    HandIsLive(a, c, parked, attached, hand);
    var b := a.(history := a.history[c := [outcome]]);
    forall x | x in b.cmds ensures CmdOk(b, parked, attached, hand, x) {
      RecordOutcomeKeepsCmd(a, c, outcome, parked, attached, hand, x);
    }
  }

  lemma SetCallKeepsCmd(a: Core, c: Id, call: Call, parked: set<Id>, attached: set<Id>, hand: set<Id>, x: Id)
    requires x in a.cmds && CmdOk(a, parked, attached, hand, x) && c in hand && c !in parked
    ensures CmdOk(SetCall(a, c, call), parked, attached, hand, x)
  {
  }

  /** While a command is in hand its call may be anything. */
  lemma SetCallKeeps(a: Core, c: Id, call: Call, parked: set<Id>, attached: set<Id>, hand: set<Id>)
    requires CoreInv(a, parked, attached, hand) && c in hand
    ensures CoreInv(SetCall(a, c, call), parked, attached, hand)
  {
    assert CmdOk(a, parked, attached, hand, c);
    forall x | x in a.cmds ensures CmdOk(SetCall(a, c, call), parked, attached, hand, x) {
      SetCallKeepsCmd(a, c, call, parked, attached, hand, x);
    }
  }

  /** Delivering one outcome to a command in hand that has not had one. */
  lemma CompleteKeeps(a: Core, c: Id, outcome: Outcome, parked: set<Id>, attached: set<Id>, hand: set<Id>)
    requires CoreInv(a, parked, attached, hand) && c in hand && History(a, c) == []
    ensures CoreInv(Complete(a, c, outcome), parked, attached, hand)
    ensures Complete(a, c, outcome).history == a.history[c := [outcome]]
    ensures Extends(a.(history := a.history[c := [outcome]]), Complete(a, c, outcome))
  {
    hide CoreInv;
    HandIsLive(a, c, parked, attached, hand);
    assert History(a, c) + [outcome] == [outcome];
    RecordOutcomeKeeps(a, c, outcome, parked, attached, hand);
    SubmitAllKeeps(a.(history := a.history[c := [outcome]]), CallbackOf(a.cmds[c].request), parked, attached, hand);
  }

  /** The state of the commands just after `cancel` has seen to the pending call. */
  function CallCleared(a: Core, c: Id): Core
    requires c in a.cmds
  {
    if KindOf(a, c).SubscribeOwnerChanged? then a else SetCall(a, c, CancelledCall(CallOf(a, c)))
  }

  /** Cancelling a command in hand: it gets its one completion and its call can no longer notify. */
  lemma CancelKeeps(a: Core, c: Id, parked: set<Id>, attached: set<Id>, hand: set<Id>)
    requires CoreInv(a, parked, attached, hand) && c in hand && History(a, c) == []
    ensures CoreInv(CancelCommand(a, c), parked, attached, hand)
    ensures CancelCommand(a, c).calls == CallCleared(a, c).calls
    ensures CancelCommand(a, c).history ==
            if CancelIsSilent(KindOf(a, c)) then a.history else a.history[c := [Outcome(Cancelled, None)]]
    ensures Extends(a.(history := CancelCommand(a, c).history, calls := CallCleared(a, c).calls), CancelCommand(a, c))
  {
    hide CoreInv;
    HandIsLive(a, c, parked, attached, hand);
    var b := CallCleared(a, c);
    SetCallKeeps(a, c, CancelledCall(CallOf(a, c)), parked, attached, hand);
    if !CancelIsSilent(KindOf(a, c)) {
      CompleteKeeps(b, c, Outcome(Cancelled, None), parked, attached, hand);
    }
  }

  // ----- changes of holder -----

  /** Parked commands about to be finished pass into the hand of the operation in progress. */
  lemma TakeParked(a: Core, p: set<Id>, parked: set<Id>, attached: set<Id>, hand: set<Id>)
    requires CoreInv(a, parked, attached, hand) && p <= parked
    ensures CoreInv(a, parked - p, attached, hand + p)
    ensures p !! hand && forall c :: c in p ==> c in a.cmds && History(a, c) == [] && MayPark(KindOf(a, c)) && IsLive(a, c)
  {
    forall x | x in a.cmds ensures CmdOk(a, parked - p, attached, hand + p, x) {
      assert CmdOk(a, parked, attached, hand, x);
    }
    forall c | c in p ensures c in a.cmds && History(a, c) == [] && MayPark(KindOf(a, c)) && c !in hand {
      assert CmdOk(a, parked, attached, hand, c);
    }
  }

  /** `onCommand` takes the front command off the queue and a byte out of the pipe. */
  function Popped(a: Core): Core
    requires a.queue != [] && a.pipe > 0
  {
    a.(queue := a.queue[1..], pipe := a.pipe - 1, taken := a.taken + [a.queue[0]])
  }

  /** A queue never holds a command twice: serials strictly increase along it. */
  lemma FrontIsNotBehind(a: Core, parked: set<Id>, attached: set<Id>, hand: set<Id>)
    requires CoreInv(a, parked, attached, hand) && a.queue != []
    ensures a.queue[0] !in a.queue[1..] && a.queue[0] in a.cmds
  {
    var n := |a.taken|;
    assert a.accepted[n] == a.queue[0];
    assert a.queue[0] in a.queue;
    forall j | 1 <= j < |a.queue| ensures a.queue[j] != a.queue[0] {
      assert a.accepted[n + j] == a.queue[j];
      assert a.cmds[a.accepted[n]].serial < a.cmds[a.accepted[n + j]].serial;
    }
  }

  lemma PoppedKeepsCmd(a: Core, c: Id, b: Core, parked: set<Id>, attached: set<Id>, hand: set<Id>, x: Id)
    requires x in a.cmds && CmdOk(a, parked, attached, hand, x) && a.queue != [] && c == a.queue[0]
    requires b == a.(queue := a.queue[1..], pipe := b.pipe, taken := a.taken + [c]) && c !in b.queue
    ensures CmdOk(b, parked, attached, hand + {c}, x)
  {
    assert a.queue == [c] + b.queue;
    assert x in a.queue <==> x == c || x in b.queue;
  }

  /** The command taken off the queue passes into the hand; `b` may drain the pipe or not. */
  lemma PoppedKeeps(a: Core, b: Core, parked: set<Id>, attached: set<Id>, hand: set<Id>)
    requires CoreInv(a, parked, attached, hand) && a.queue != []
    requires b == a.(queue := a.queue[1..], pipe := b.pipe, taken := a.taken + [a.queue[0]])
    ensures a.queue[0] in a.cmds && CoreInv(b, parked, attached, hand + {a.queue[0]})
    ensures var c := a.queue[0]; IsLive(b, c) && History(b, c) == [] && !b.cmds[c].keep && CallOf(b, c).NoCall?
  {
    var c := a.queue[0];
    FrontIsNotBehind(a, parked, attached, hand);
    assert c in a.queue;
    assert CmdOk(a, parked, attached, hand, c);
    assert a.queue == [c] + b.queue;
    assert b.accepted == b.taken + b.queue;
    forall x | x in b.cmds ensures CmdOk(b, parked, attached, hand + {c}, x) {
      PoppedKeepsCmd(a, c, b, parked, attached, hand, x);
    }
  }

  /** Marking the command as kept and its call as waiting parks it. */
  function Parked(a: Core, c: Id): Core
    requires c in a.cmds
  {
    var b := SetCall(a, c, Waiting);
    b.(cmds := b.cmds[c := b.cmds[c].(keep := true)])
  }

  lemma ParkedKeepsCmd(a: Core, c: Id, parked: set<Id>, attached: set<Id>, hand: set<Id>, x: Id)
    requires c in a.cmds && x in a.cmds && c in hand && c in a.live
    requires History(a, c) == [] && MayPark(KindOf(a, c))
    requires CmdOk(a, parked, attached, hand, x) && CmdOk(a, parked, attached, hand, c)
    ensures CmdOk(Parked(a, c), parked + {c}, attached, hand - {c}, x)
  {
  }

  lemma ParkedKeeps(a: Core, c: Id, parked: set<Id>, attached: set<Id>, hand: set<Id>)
    requires CoreInv(a, parked, attached, hand) && c in hand
    requires c in a.cmds && History(a, c) == [] && MayPark(KindOf(a, c))
    ensures CoreInv(Parked(a, c), parked + {c}, attached, hand - {c})
  {
    hide CmdOk;
    HandIsLive(a, c, parked, attached, hand);
    var b := Parked(a, c);
    forall x | x in b.cmds ensures CmdOk(b, parked + {c}, attached, hand - {c}, x) {
      ParkedKeepsCmd(a, c, parked, attached, hand, x);
    }
  }

  // ----- changes of owner -----

  function Disowned(a: Core, c: Id): Core
    requires c in a.cmds
  {
    a.(cmds := a.cmds[c := a.cmds[c].(owns := false)])
  }

  lemma DisownedKeepsCmd(a: Core, c: Id, parked: set<Id>, attached: set<Id>, hand: set<Id>, x: Id)
    requires c in a.cmds && x in a.cmds && CmdOk(a, parked, attached, hand, x)
    requires c in hand && c in a.live && a.cmds[c].owns && History(a, c) != []
    ensures CmdOk(Disowned(a, c), parked, attached + {c}, hand, x)
  {
  }

  /** The command hands the object it created over to a connection. */
  lemma DisownedKeeps(a: Core, c: Id, parked: set<Id>, attached: set<Id>, hand: set<Id>)
    requires CoreInv(a, parked, attached, hand) && c in hand && c in a.cmds && a.cmds[c].owns && History(a, c) != []
    ensures CoreInv(Disowned(a, c), parked, attached + {c}, hand)
  {
    HandIsLive(a, c, parked, attached, hand);
    var b := Disowned(a, c);
    assert RecordsOk(b, parked, attached + {c}, hand) && OrderOk(b);
    hide CmdOk, RecordsOk, OrderOk;
    forall x | x in b.cmds ensures CmdOk(b, parked, attached + {c}, hand, x) {
      DisownedKeepsCmd(a, c, parked, attached, hand, x);
    }
  }

  /** Objects taken away from connections are freed. */
  lemma DetachedKeeps(a: Core, objects: set<Id>, parked: set<Id>, attached: set<Id>, hand: set<Id>)
    requires CoreInv(a, parked, attached, hand) && objects <= attached
    ensures CoreInv(a.(objs := a.objs - objects), parked, attached - objects, hand)
  {
    var b := a.(objs := a.objs - objects);
    forall x | x in b.cmds ensures CmdOk(b, parked, attached - objects, hand, x) {
      assert CmdOk(a, parked, attached, hand, x);
    }
  }

  // ----- cancelling a whole pending set -----

  /** One completion, gone, and never to be notified again. */
  ghost predicate Finished(a: Core, b: Core, c: Id)
    requires c in a.cmds
  {
    && c !in b.live
    && History(b, c) == History(a, c) + [Outcome(Cancelled, None)]
    && (CanNotify(CallOf(b, c)) ==> KindOf(a, c).SubscribeOwnerChanged?)
  }

  /** What the rest of the library sees when the commands `p` are finished by cancellation:
      nothing else changes but for new submissions. */
  ghost predicate Finishes(a: Core, b: Core, p: set<Id>)
    requires p <= a.cmds.Keys
  {
    && Grows(a, b)
    && (forall c :: c in a.cmds && c !in p ==> Untouched(a, b, c))
    && (forall c :: c in p ==> Finished(a, b, c))
  }

  lemma FinishesTransitive(a: Core, b: Core, c: Core, p: set<Id>, q: set<Id>)
    requires p <= a.cmds.Keys && q <= a.cmds.Keys && q <= b.cmds.Keys && p !! q
    requires Finishes(a, b, p) && Finishes(b, c, q)
    ensures Finishes(a, c, p + q)
  {
    GrowsTransitive(a, b, c);
    forall i | i in a.cmds && i !in p + q ensures Untouched(a, c, i) {
      assert Untouched(a, b, i) && Untouched(b, c, i);
    }
    forall i | i in p + q ensures Finished(a, c, i) {
      if i in p {
        assert Finished(a, b, i) && Untouched(b, c, i);
      } else {
        assert Untouched(a, b, i) && Finished(b, c, i);
      }
    }
  }

  lemma DeleteGrows(a: Core, b: Core, c: Id)
    requires IsLive(b, c) && Grows(a, b)
    ensures Grows(a, Delete(b, c))
  {
  }

  lemma DeleteUntouched(a: Core, b: Core, c: Id, x: Id)
    requires x != c && IsLive(b, c) && Untouched(a, b, x)
    ensures Untouched(a, Delete(b, c), x)
  {
  }

  lemma ExtendsIsLive(a: Core, a': Core, b: Core, c: Id)
    requires IsLive(a, c) && Extends(a', b) && a' == a.(history := b.history, calls := b.calls)
    ensures IsLive(b, c) && Grows(a, b)
  {
    assert Untouched(a', b, c);
  }

  lemma DeleteFinishes(a: Core, b: Core, c: Id)
    requires IsLive(a, c)
    requires Extends(a.(history := b.history, calls := b.calls), b)
    requires b.history == a.history[c := History(a, c) + [Outcome(Cancelled, None)]]
    requires b.calls == CallCleared(a, c).calls
    ensures Finishes(a, Delete(b, c), {c})
  {
    var d := Delete(b, c);
    var a' := a.(history := b.history, calls := b.calls);
    ExtendsIsLive(a, a', b, c);
    hide Grows, Delete;
    DeleteGrows(a, b, c);
    forall x | x in a.cmds && x !in {c} ensures Untouched(a, d, x) {
      assert Untouched(a', b, x);
      DeleteUntouched(a, b, c, x);
    }
    DeletedIsFinished(a, b, c);
  }

  lemma DeletedIsFinished(a: Core, b: Core, c: Id)
    requires c in a.cmds && IsLive(b, c)
    requires b.history == a.history[c := History(a, c) + [Outcome(Cancelled, None)]]
    requires b.calls == CallCleared(a, c).calls
    ensures Finished(a, Delete(b, c), c)
  {
    assert CallOf(Delete(b, c), c) == CallOf(CallCleared(a, c), c);
  }

  /** Cancel and delete one command in hand. */
  lemma FinishOneKeeps(a: Core, c: Id, parked: set<Id>, attached: set<Id>, hand: set<Id>)
    requires CoreInv(a, parked, attached, hand) && c in hand && c in a.cmds
    requires History(a, c) == [] && !CancelIsSilent(KindOf(a, c))
    ensures CoreInv(Delete(CancelCommand(a, c), c), parked, attached, hand - {c})
    ensures Finishes(a, Delete(CancelCommand(a, c), c), {c})
  {
    HandIsLive(a, c, parked, attached, hand);
    hide CoreInv, CancelCommand, Finishes, Extends;
    CancelKeeps(a, c, parked, attached, hand);
    var b := CancelCommand(a, c);
    assert History(a, c) + [Outcome(Cancelled, None)] == [Outcome(Cancelled, None)];
    DeleteFinishes(a, b, c);
    ExtendsKeepsKind(a.(history := b.history, calls := b.calls), b, c);
    assert CallOf(b, c) == CallOf(CallCleared(a, c), c);
    DeleteKeeps(b, c, parked, attached, hand);
  }

  lemma ExtendsKeepsKind(a: Core, b: Core, c: Id)
    requires Extends(a, b) && c in a.cmds
    ensures c in b.cmds && KindOf(b, c) == KindOf(a, c)
  {
  }

  ghost predicate Cancellable(a: Core, c: Id) {
    c in a.cmds && History(a, c) == [] && MayPark(KindOf(a, c))
  }

  lemma FinishesKeepsCancellable(a: Core, b: Core, c: Id, x: Id)
    requires c in a.cmds && Finishes(a, b, {c}) && x != c && Cancellable(a, x)
    ensures Cancellable(b, x)
  {
    assert Untouched(a, b, x);
  }

  lemma FinishNothing(a: Core)
    ensures Finishes(a, a, {})
  {
  }

  lemma {:induction false} CancelAllKeeps(a: Core, p: set<Id>, parked: set<Id>, attached: set<Id>, hand: set<Id>)
    requires CoreInv(a, parked, attached, hand + p) && p !! hand
    requires forall c :: c in p ==> Cancellable(a, c)
    ensures CoreInv(CancelAll(a, p), parked, attached, hand)
    ensures p <= a.cmds.Keys && Finishes(a, CancelAll(a, p), p)
    decreases p
  {
    hide CoreInv, Finishes, CancelCommand, Delete;
    if p == {} {
      assert hand + p == hand;
      FinishNothing(a);
    } else {
      var c := Least(p);
      assert Cancellable(a, c);
      FinishOneKeeps(a, c, parked, attached, hand + p);
      var b := Delete(CancelCommand(a, c), c);
      assert hand + p - {c} == hand + (p - {c});
      forall x | x in p - {c} ensures Cancellable(b, x) {
        FinishesKeepsCancellable(a, b, c, x);
      }
      CancelAllKeeps(b, p - {c}, parked, attached, hand);
      FinishesTransitive(a, b, CancelAll(b, p - {c}), {c}, p - {c});
      assert {c} + (p - {c}) == p;
    }
  }
}
