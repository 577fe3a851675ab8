/** The library as it runs: the dispatcher's fields, the static connection cache and the command
    objects, changed in place by the methods below. Each method is proved to carry the state it
    starts in, as `View()` presents it, to the state the protocol functions give. */
module Library {
  import opened Handles
  import opened Commands
  import opened Wrappers
  import opened Connections
  import opened Callbacks
  import opened Progress
  import opened CoreInvariant
  import opened Invariant
  import opened Execution
  import opened ExecutionOutcomes
  import opened Replies
  import opened Runs
  import opened Guarantees
  import opened Preconditions
  import opened Outcomes
  import Shutdowns

  /** The state after a failed `submitCommand`: only a handle has been used up. */
  function HandleUsed(a: Core): Core {
    if a.running then a.(counter := NextHandle(a.counter), issued := a.issued + 1) else a
  }

  /** `onCommand` answered by D-Bus as `answers` says, for as many turns as there are answers. */
  function Turns(s: State, answers: seq<Answer>): State
    decreases |answers|
  {
    if answers == [] || !CanTurn(s) then s else Turns(ExecuteFront(s, answers[0]), answers[1..])
  }

  predicate CanTurn(s: State) {
    s.core.queue != [] && s.core.running && s.core.pipe > 0 && CountsPositive(s)
  }

  /** The objects the library allocates, and what D-Bus holds for it: the commands with their
      subscriptions and registrations, their pending calls, the references on connections. */
  datatype Memory = Memory(
    cmds: map<Id, Cmd>, live: set<Id>, objs: set<Id>, nextId: Id, calls: map<Id, Call>, refs: map<nat, nat>, issued: nat)

  /** What has happened so far; the program keeps no record of it. */
  datatype Record = Record(
    held: set<Id>, accepted: seq<Id>, taken: seq<Id>, history: map<Id, seq<Outcome>>, fault: bool)

  /** Dispatching one connection: whether that completed, and the connections added meanwhile. */
  datatype Round = Round(complete: bool, arrivals: seq<Id>)

  function Sweep(list: seq<Id>, i: nat, rounds: seq<Round>): seq<Id>
    decreases |rounds|
  {
    if i >= |list| || rounds == [] then list
    else
      var longer := list + rounds[0].arrivals;
      if rounds[0].complete then Sweep(longer[..i] + longer[i + 1..], i, rounds[1..]) else Sweep(longer, i + 1, rounds[1..])
  }

  /** The connections whose round did not complete, in order; those that arrive while the list is
      being visited have their round as well, if there are rounds enough. */
  function Unfinished(list: seq<Id>, rounds: seq<Round>): seq<Id>
    decreases |rounds|
  {
    if list == [] || rounds == [] then list
    else (if rounds[0].complete then [] else [list[0]]) + Unfinished(list[1..] + rounds[0].arrivals, rounds[1..])
  }

  /** Erasing while iterating over a list that grows skips nobody: exactly the connections whose
      messages were all dispatched are gone, and the others keep their order. */
  lemma {:induction false} SweepSkipsNobody(done: seq<Id>, list: seq<Id>, rounds: seq<Round>)
    ensures Sweep(done + list, |done|, rounds) == done + Unfinished(list, rounds)
    decreases |rounds|
  {
    if list == [] || rounds == [] {
      assert done + list == done + Unfinished(list, rounds);
    } else {
      var rest := list[1..] + rounds[0].arrivals;
      SweepOne(done, list, rounds);
      hide Sweep, Unfinished;
      var later := Unfinished(rest, rounds[1..]);
      if rounds[0].complete {
        SweepSkipsNobody(done, rest, rounds[1..]);
      } else {
        SweepSkipsNobody(done + [list[0]], rest, rounds[1..]);
        assert (done + [list[0]]) + later == done + ([list[0]] + later);
      }
    }
  }

  lemma UnfinishedOne(list: seq<Id>, rounds: seq<Round>)
    requires list != [] && rounds != []
    ensures var later := Unfinished(list[1..] + rounds[0].arrivals, rounds[1..]);
            Unfinished(list, rounds) == if rounds[0].complete then later else [list[0]] + later
  {
  }

  lemma SweepOne(done: seq<Id>, list: seq<Id>, rounds: seq<Round>)
    requires list != [] && rounds != []
    ensures var rest := list[1..] + rounds[0].arrivals;
            Sweep(done + list, |done|, rounds) ==
              if rounds[0].complete then Sweep(done + rest, |done|, rounds[1..])
              else Sweep(done + [list[0]] + rest, |done + [list[0]]|, rounds[1..])
    ensures var later := Unfinished(list[1..] + rounds[0].arrivals, rounds[1..]);
            Unfinished(list, rounds) == if rounds[0].complete then later else [list[0]] + later
  {
    hide Unfinished;
    UnfinishedOne(list, rounds);
    var rest := list[1..] + rounds[0].arrivals;
    var longer := done + list + rounds[0].arrivals;
    if rounds[0].complete {
      assert longer[..|done|] + longer[|done| + 1..] == done + rest;
    } else {
      assert done + [list[0]] + rest == longer;
    }
  }

  class Library {
    // the dispatcher
    var queue: seq<Id>
    var pipe: nat
    var counter: Uint32
    var running: bool
    var quit: bool
    var dispatchList: seq<Id>
    // the static connection cache
    var conns: map<Id, Conn>

    var memory: Memory
    ghost var record: Record

    ghost function View(): State
      reads this
    {
      State(Core(memory.cmds, memory.nextId, memory.live, record.held, queue, pipe, counter, memory.issued, record.accepted,
                 record.taken, running, quit, memory.calls, memory.objs, record.history, record.fault),
            conns, memory.refs, dispatchList)
    }

    predicate Alive(c: Id)
      reads this
    {
      c in memory.live && c in memory.cmds
    }

    constructor ()
      ensures View() == INITIAL && Good(View())
    {
      queue, pipe, counter, running, quit, dispatchList, conns := [], 0, INVALID_HANDLE, true, false, [], map[];
      memory := Memory(map[], {}, {}, 0, map[], map[], 0);
      record := Record({}, [], [], map[], false);
      new;
      InitialIsGood();
    }

    /** Whenever anything is submitted while the dispatcher runs, there is a byte in the pipe for each
        queued command. */
    predicate InStep()
      reads this
    {
      running ==> pipe == |queue|
    }

    /** A deleted object has been used. */
    ghost method Touched()
      modifies this`record
      ensures View() == Raise(old(View()))
    {
      record := record.(fault := true);
    }

    // ----- submitting -----

    method GetNextHandle() returns (h: Uint32)
      modifies this`counter, this`memory
      ensures h == counter == NextHandle(old(counter)) && memory == old(memory).(issued := old(memory.issued) + 1)
    {
      counter := (counter + 1) % UINT32_SIZE;
      if counter == INVALID_HANDLE {
        counter := (counter + 1) % UINT32_SIZE;
      }
      memory := memory.(issued := memory.issued + 1);
      h := counter;
    }

    /** Queue the command and write a byte to the pipe; if the byte cannot be written, take the
        command off the queue again. */
    method SubmitCommand(c: Id, wrote: bool) returns (h: Uint32)
      requires InStep()
      requires c in memory.cmds && memory.cmds[c].handle == INVALID_HANDLE
      modifies this
      ensures InStep()
      ensures h != INVALID_HANDLE <==> old(running) && wrote
      ensures h != INVALID_HANDLE ==> c in memory.cmds && memory.cmds[c].handle == h
      ensures View() == old(View()).(core :=
                if h != INVALID_HANDLE then Accept(old(View()).core, c) else HandleUsed(old(View()).core))
      ensures counter == if old(running) then NextHandle(old(counter)) else old(counter)
      ensures memory.issued == old(memory.issued) + if old(running) then 1 else 0
    {
      if !running {
        return INVALID_HANDLE;
      }
      h := GetNextHandle();
      queue := queue + [c];
      if wrote {
        pipe := pipe + 1;
        memory := memory.(cmds := memory.cmds[c := memory.cmds[c].(handle := h, serial := memory.issued)]);
        record := record.(accepted := record.accepted + [c], held := record.held - {c});
      } else {
        h := INVALID_HANDLE;
        queue := queue[..|queue| - 1];
        memory := memory.(cmds := memory.cmds[c := memory.cmds[c].(handle := h)]);
        assert queue == old(queue) && memory.cmds == old(memory.cmds);
      }
    }

    method DeleteCommand(c: Id)
      modifies this`memory, this`record
      ensures View() == Dispose(old(View()), c)
    {
      if Alive(c) {
        memory := memory.(live := memory.live - {c}, objs := if memory.cmds[c].owns then memory.objs - {c} else memory.objs);
      } else {
        Touched();
      }
    }

    /** Submit a command, which passes to the dispatcher or is deleted here. */
    method SubmitCmd(c: Id, wrote: bool) returns (accepting: bool)
      requires InStep()
      requires Alive(c) && memory.cmds[c].handle == INVALID_HANDLE
      modifies this
      ensures InStep()
      ensures accepting <==> old(running) && wrote
      ensures View() == old(View()).(core := Submit(old(View()).core, c, wrote))
      ensures old(Good(View()) && c in record.held) ==> Good(View())
    {
      hide Good, Submit;
      ghost var s := View();
      var h := SubmitCommand(c, wrote);
      accepting := h != INVALID_HANDLE;
      if !accepting {
        record := record.(held := record.held - {c});
        DeleteCommand(c);
      }
      SubmitIsEither(s.core, c, wrote);
      if Good(s) && c in s.core.held {
        SubmissionKeeps(s, c, wrote);
      }
    }

    /** The constructor of a command object. */
    method NewCommand(request: Request) returns (c: Id)
      modifies this`memory, this`record
      ensures View() == old(View()).(core := Build(old(View()).core, request)) && c == old(memory.nextId)
      ensures old(Good(View())) ==> Good(View())
    {
      hide Good;
      ghost var s := View();
      c := memory.nextId;
      var creates := CreatesObject(request.kind);
      memory := memory.(
        cmds := memory.cmds[c := Cmd(request, INVALID_HANDLE, 0, false, creates)],
        nextId := c + 1,
        live := memory.live + {c},
        objs := if creates then memory.objs + {c} else memory.objs);
      record := record.(held := record.held + {c});
      if Good(s) {
        ConstructionKeeps(s, request);
      }
    }

    /** The user's callback, submitting through the asynchronous interface. */
    method RunCallback(submissions: seq<Submission>)
      requires InStep()
      modifies this
      ensures InStep()
      ensures View() == old(View()).(core := SubmitAll(old(View()).core, submissions))
      ensures AllSubmitted(old(View()).core, View().core, submissions)
    {
      hide Build, Submit, AllSubmitted;
      var i := 0;
      while i < |submissions|
        invariant 0 <= i <= |submissions|
        invariant InStep() && View() == old(View()).(core := View().core)
        invariant SubmitAll(View().core, submissions[i..]) == SubmitAll(old(View()).core, submissions)
      {
        ghost var a := View().core;
        assert submissions[i..][0] == submissions[i] && submissions[i..][1..] == submissions[i + 1..];
        var c := NewCommand(submissions[i].request);
        BuiltIsNew(a, submissions[i].request);
        var accepting := SubmitCmd(c, submissions[i].wrote);
        i := i + 1;
      }
      SubmitAllSubmits(old(View()).core, submissions);
    }

    // ----- completing and cancelling -----

    /** `dispatch`: the outcome goes to the waiting client or to the user's callback, which runs to its
        end. */
    method Complete(c: Id, outcome: Outcome)
      requires InStep()
      modifies this
      ensures InStep()
      ensures View() == Deliver(old(View()), c, outcome)
      ensures forall hand: set<Id> :: Inv(old(View()), hand) && c in hand && History(old(View()).core, c) == [] ==>
                Inv(View(), hand) && History(View().core, c) == [outcome]
      ensures old(Alive(c)) ==> CalledBack(old(View()).core, View().core, c, outcome)
    {
      hide SubmitAll, Inv, CalledBack, AllSubmitted;
      ghost var s := View();
      if Alive(c) {
        CompleteCallsBack(s.core, c, outcome);
        record := record.(history := record.history[c := History(View().core, c) + [outcome]]);
        RunCallback(CallbackOf(memory.cmds[c].request));
      } else {
        Touched();
      }
      forall hand: set<Id> | Inv(s, hand) && c in hand && History(s.core, c) == []
        ensures Inv(View(), hand) && History(View().core, c) == [outcome]
      {
        DeliverKeeps(s, c, outcome, hand);
      }
    }

    /** A completed call has its reply stolen, any other is cancelled; then the command is told. */
    method CancelCommand(c: Id)
      requires InStep()
      modifies this
      ensures InStep()
      ensures View() == old(View()).(core := Commands.CancelCommand(old(View()).core, c))
      ensures forall hand: set<Id> :: Inv(old(View()), hand) && c in hand && History(old(View()).core, c) == [] ==>
                Inv(View(), hand) && CancelledOnce(View().core, c)
    {
      hide SubmitAll, Inv, CancelledOnce;
      ghost var s := View();
      if Alive(c) {
        var kind := memory.cmds[c].request.kind;
        var call := if c in memory.calls then memory.calls[c] else NoCall;
        if !call.NoCall? && !kind.SubscribeOwnerChanged? {
          var done := call.Completed? || call.Stolen?;
          memory := memory.(calls := memory.calls[c := if done then Stolen else CallCancelled]);
        }
        if !CancelIsSilent(kind) {
          Complete(c, Outcome(Cancelled, None));
        }
      } else {
        Touched();
      }
      forall hand: set<Id> | Inv(s, hand) && c in hand && History(s.core, c) == []
        ensures Inv(View(), hand) && CancelledOnce(View().core, c)
      {
        CancelKeepsInv(s, c, hand);
      }
    }

    /** Cancel and delete a set of commands, one after the other in container order. */
    method CancelAndDelete(pending: set<Id>)
      requires InStep()
      modifies this
      ensures InStep()
      ensures View() == old(View()).(core := CancelAll(old(View()).core, pending))
    {
      hide Commands.CancelCommand, Delete;
      var rest := pending;
      while rest != {}
        invariant InStep() && View() == old(View()).(core := View().core)
        invariant CancelAll(View().core, rest) == CancelAll(old(View()).core, pending)
        decreases |rest|
      {
        var c := Least(rest);
        CancelCommand(c);
        DeleteCommand(c);
        rest := rest - {c};
      }
    }

    // ----- connections -----

    /** `dbus_connection_unref`. */
    method DropReference(d: nat)
      modifies this`memory, this`record
      ensures View() == Unref(old(View()), d)
    {
      var n := RefsOn(memory.refs, d);
      if n == 0 {
        Touched();
      } else {
        memory := memory.(refs := memory.refs[d := n - 1]);
      }
    }

    /** Free a set of subscriptions or registrations. */
    method FreeObjects(objects: set<Id>)
      modifies this`memory
      ensures memory == old(memory).(objs := old(memory).objs - objects)
    {
      var rest := objects;
      while rest != {}
        invariant rest <= objects
        invariant memory == old(memory).(objs := memory.objs)
        invariant memory.objs == old(memory).objs - (objects - rest)
        decreases |rest|
      {
        var i := Least(rest);
        memory := memory.(objs := memory.objs - {i});
        rest := rest - {i};
      }
    }

    /** The destructor of a connection: forget it, finish its pending commands, free its objects. */
    method DestroyWrapper(k: Id, conn: Conn)
      requires InStep()
      modifies this
      ensures InStep()
      ensures var t := old(View());
              var a := CancelAll(t.core, conn.pending);
              View() == t.(core := a.(objs := a.objs - conn.subs - conn.regs), dispatchList := Without(t.dispatchList, k))
    {
      hide CancelAll;
      dispatchList := Without(dispatchList, k);
      CancelAndDelete(conn.pending);
      FreeObjects(conn.subs);
      FreeObjects(conn.regs);
    }

    method DecRef(k: Id)
      requires InStep()
      requires k in conns && conns[k].refCount > 0
      modifies this
      ensures InStep()
      ensures View() == Connections.DecRef(old(View()), k)
    {
      hide CancelAll, Without;
      var conn := conns[k].(refCount := conns[k].refCount - 1, releases := conns[k].releases + 1);
      conns := if conn.refCount == 0 then conns - {k} else conns[k := conn];
      DropReference(conn.dbus);
      if conn.refCount == 0 {
        DestroyWrapper(k, conn);
      }
    }

    /** Release a connection, unless it has been released too often already. */
    method Release(k: Id)
      requires InStep()
      requires CountsPositive(View())
      modifies this
      ensures InStep()
      ensures View() == Connections.Release(old(View()), k)
      ensures forall hand: set<Id> :: Inv(old(View()), hand) ==> Inv(View(), hand)
    {
      hide Connections.DecRef, Inv;
      ghost var s := View();
      if k in conns {
        DecRef(k);
      }
      forall hand: set<Id> | Inv(s, hand) ensures Inv(View(), hand) {
        ReleaseKeeps(s, k, hand);
      }
    }

    method ForceReleaseAll()
      requires InStep()
      requires CountsPositive(View())
      modifies this
      ensures InStep()
      ensures View() == Connections.ForceReleaseAll(old(View()))
    {
      hide Connections.ForceReleaseAll, Connections.DecRef, CountsPositive;
      while conns.Keys != {}
        invariant InStep() && CountsPositive(View())
        invariant Connections.ForceReleaseAll(View()) == Connections.ForceReleaseAll(old(View()))
        decreases |conns.Keys|
      {
        var k := Least(conns.Keys);
        ghost var cached := conns.Keys;
        ReleaseStep(View());
        while conns[k].refCount > 1
          invariant conns.Keys == cached && conns[k].refCount > 0
          invariant InStep() && CountsPositive(View())
          invariant Connections.ForceReleaseAll(View()) == Connections.ForceReleaseAll(old(View()))
          decreases conns[k].refCount
        {
          ReleaseStep(View());
          DecRef(k);
        }
        ReleaseStep(View());
        DecRef(k);
      }
      ReleaseEnds(View());
    }

    /** The cached wrapper of an underlying connection, if there is one. */
    method FindWrapper(d: nat) returns (found: Option<Id>)
      ensures found == if CachedOn(View(), d) == {} then None else Some(Least(CachedOn(View(), d)))
    {
      found := None;
      var rest := conns.Keys;
      while rest != {}
        invariant rest <= conns.Keys && found.None?
        invariant forall k :: k in CachedOn(View(), d) ==> k in rest
        decreases |rest|
      {
        var k := Least(rest);
        if conns[k].dbus == d {
          assert k in CachedOn(View(), d);
          found := Some(k);
          break;
        }
        rest := rest - {k};
      }
    }

    /** Obtain a connection: the cached wrapper if there is one, else a new wrapper, unless setting
        it up fails. */
    method Create(isPrivate: bool, opening: Opening) returns (outcome: Outcome)
      modifies this`memory, this`conns, this`dispatchList, this`record
      ensures (View(), outcome) == Connections.Create(old(View()), isPrivate, opening)
    {
      match opening
      case OpenFailed(code) => outcome := Outcome(code, None);
      case Opened(d, setUp) =>
        memory := memory.(refs := memory.refs[d := RefsOn(memory.refs, d) + 1]);
        var found := FindWrapper(d);
        assert CachedOn(View(), d) == CachedOn(old(View()), d);
        if found.Some? {
          var conn := conns[found.value];
          conns := conns[found.value := conn.(refCount := conn.refCount + 1, creates := conn.creates + 1)];
          outcome := Outcome(Ok, found);
        } else if setUp {
          var k := memory.nextId;
          memory := memory.(nextId := k + 1);
          conns, dispatchList := conns[k := Conn(d, isPrivate, 1, 1, 0, {}, {}, {})], dispatchList + [k];
          outcome := Outcome(Ok, Some(k));
        } else {
          DropReference(d);
          outcome := Outcome(DBusError, None);
        }
    }

    method SignalSubExists(i: Id) returns (found: bool)
      ensures found == SubscriptionExists(View(), i)
    {
      found := false;
      var rest := conns.Keys;
      while rest != {} && !found
        invariant rest <= conns.Keys
        invariant if found then SubscriptionExists(View(), i) else forall k :: k in conns && i in conns[k].subs ==> k in rest
        decreases |rest|
      {
        var k := Least(rest);
        found := i in conns[k].subs;
        rest := rest - {k};
      }
    }

    method ServiceRegExists(i: Id) returns (found: bool)
      ensures found == ServiceExists(View(), i)
    {
      found := false;
      var rest := conns.Keys;
      while rest != {} && !found
        invariant rest <= conns.Keys
        invariant if found then ServiceExists(View(), i) else forall k :: k in conns && i in conns[k].regs ==> k in rest
        decreases |rest|
      {
        var k := Least(rest);
        found := i in conns[k].regs;
        rest := rest - {k};
      }
    }

    method EraseCommand(k: Id, c: Id)
      modifies this`conns, this`record
      ensures View() == UnregisterPending(old(View()), k, c)
    {
      if k in conns {
        conns := conns[k := conns[k].(pending := conns[k].pending - {c})];
      } else {
        Touched();
      }
    }

    /** The first pending command of connection `k` that carries the handle. */
    method FindPending(k: Id, h: Uint32) returns (found: Option<Id>)
      requires k in conns
      ensures found == if Matching(View(), k, h) == {} then None else Some(Least(Matching(View(), k, h)))
    {
      found := None;
      var rest := conns[k].pending;
      while rest != {}
        invariant rest <= conns[k].pending && found.None?
        invariant forall c :: c in Matching(View(), k, h) ==> c in rest
        decreases |rest|
      {
        var c := Least(rest);
        if c in memory.cmds && memory.cmds[c].handle == h {
          assert c in Matching(View(), k, h);
          found := Some(c);
          break;
        }
        rest := rest - {c};
      }
    }

    /** Look through the pending commands of every connection for the first that has the handle,
        then cancel, delete and erase it. */
    method CancelPendingByHandle(h: Uint32) returns (code: Code)
      requires InStep()
      modifies this
      ensures InStep()
      ensures (View(), code) == CancelByHandle(old(View()), h)
    {
      hide Commands.CancelCommand, Delete, Matching, Inv, CancelledOnce;
      code := NotFound;
      var rest := conns.Keys;
      while rest != {}
        invariant rest <= conns.Keys && code == NotFound && View() == old(View()) && InStep()
        invariant forall k :: k in ConnsMatching(View(), h) ==> k in rest
        decreases |rest|
      {
        var k := Least(rest);
        var found := FindPending(k, h);
        if found.Some? {
          assert k in ConnsMatching(View(), h);
          CancelCommand(found.value);
          DeleteCommand(found.value);
          EraseCommand(k, found.value);
          code := Ok;
          break;
        }
        rest := rest - {k};
      }
    }

    // ----- executing commands -----

    method SetKeep(c: Id)
      requires c in memory.cmds
      modifies this`memory
      ensures memory == old(memory).(cmds := old(memory).cmds[c := old(memory).cmds[c].(keep := true)])
    {
      memory := memory.(cmds := memory.cmds[c := memory.cmds[c].(keep := true)]);
    }

    /** Send the request and park the command until its reply comes. */
    method Park(c: Id, k: Id, answer: Answer)
      requires InStep()
      requires k in conns && c in memory.cmds
      modifies this
      ensures InStep()
      ensures View() == Connections.Park(old(View()), c, k, answer)
    {
      hide Deliver;
      if !answer.message || !answer.append || !answer.send {
        Complete(c, Outcome(NoMemory, None));
      } else {
        memory := memory.(calls := memory.calls[c := Unarmed]);
        if !answer.notify {
          Complete(c, Outcome(NoMemory, None));
        } else if !answer.register {
          memory := memory.(calls := memory.calls[c := CallCancelled]);
          assert old(memory.calls)[c := Unarmed][c := CallCancelled] == old(memory.calls)[c := CallCancelled];
          Complete(c, Outcome(NoMemory, None));
        } else {
          memory := memory.(calls := memory.calls[c := Waiting]);
          assert old(memory.calls)[c := Unarmed][c := Waiting] == old(memory.calls)[c := Waiting];
          conns := conns[k := conns[k].(pending := conns[k].pending + {c})];
          SetKeep(c);
        }
      }
    }

    method ParkIfConnected(c: Id, k: Id, answer: Answer)
      requires InStep()
      requires c in memory.cmds
      modifies this
      ensures InStep()
      ensures View() == Connections.ParkIfConnected(old(View()), c, k, answer)
    {
      hide Deliver, Connections.Park;
      if k in conns && answer.connected {
        Park(c, k, answer);
      } else {
        Complete(c, Outcome(NotConnected, None));
      }
    }

    /** `execute` of the two removing families, once the object has been looked up. */
    method ExecuteRemoval(c: Id, i: Id, found: bool, answer: Answer)
      requires InStep()
      requires c in memory.cmds
      modifies this
      ensures InStep()
      ensures View() == Connections.ExecuteRemoval(old(View()), c, i, found, answer)
    {
      hide Deliver, Connections.ParkIfConnected;
      if !found {
        Complete(c, Outcome(NotFound, None));
      } else if i in memory.objs && i in memory.cmds && CreatesObject(memory.cmds[i].request.kind) {
        ParkIfConnected(c, memory.cmds[i].request.kind.conn, answer);
      } else {
        Touched();
      }
    }

    method ExecuteInvokeNoReply(c: Id, k: Id, answer: Answer)
      requires InStep()
      modifies this
      ensures InStep()
      ensures View() == SendOnly(old(View()), c, k, answer)
    {
      hide Deliver;
      if !(k in conns && answer.connected) {
        Complete(c, Outcome(NotConnected, None));
      } else if !answer.message || !answer.append || !answer.send {
        Complete(c, Outcome(NoMemory, None));
      }
    }

    method ExecuteEmit(c: Id, service: Option<Id>, answer: Answer)
      requires InStep()
      modifies this
      ensures InStep()
      ensures View() == EmitSignal(old(View()), c, service, answer)
    {
      hide Deliver;
      if service.Some? {
        var i := service.value;
        if !(i in memory.objs && i in memory.cmds && CreatesObject(memory.cmds[i].request.kind)) {
          Touched();
        } else {
          var code :=
            if !answer.message || !answer.append then NoMemory
            else if !(memory.cmds[i].request.kind.conn in conns && answer.connected) then NotConnected
            else if !answer.send then ConnSend
            else Ok;
          Complete(c, Outcome(code, None));
        }
      }
    }

    method ExecuteShutdown(c: Id)
      requires InStep()
      requires CountsPositive(View())
      modifies this
      ensures InStep()
      ensures var t := Connections.ForceReleaseAll(old(View()));
              View() == Fail(t.(core := t.core.(quit := true)), c, Ok)
    {
      hide Commands.Complete, Connections.ForceReleaseAll;
      ForceReleaseAll();
      quit := true;
      Complete(c, Outcome(Ok, None));
    }

    method ExecuteOpen(c: Id, isPrivate: bool, opening: Opening)
      requires InStep()
      modifies this
      ensures InStep()
      ensures var (t, outcome) := Connections.Create(old(View()), isPrivate, opening);
              View() == Deliver(t, c, outcome)
    {
      hide Deliver, Connections.Create;
      var outcome := Create(isPrivate, opening);
      Complete(c, outcome);
    }

    method ExecuteCancel(c: Id, h: Uint32)
      requires InStep()
      modifies this
      ensures InStep()
      ensures var (t, code) := CancelByHandle(old(View()), h);
              View() == Fail(t, c, code)
    {
      hide Deliver, CancelByHandle;
      var code := CancelPendingByHandle(h);
      Complete(c, Outcome(code, None));
    }

    /** `execute` of the command classes that work on one connection. */
    method ExecuteRequest(c: Id, answer: Answer)
      requires InStep()
      requires c in memory.cmds && CountsPositive(View())
      requires MayPark(memory.cmds[c].request.kind) || memory.cmds[c].request.kind.Invoke?
      modifies this
      ensures InStep()
      ensures View() == Connections.Execute(old(View()), c, answer)
    {
      hide Deliver, Connections.ParkIfConnected, Connections.Park, Connections.ExecuteRemoval, SendOnly;
      match memory.cmds[c].request.kind
      case Unsubscribe(i) =>
        var found := SignalSubExists(i);
        ExecuteRemoval(c, i, found, answer);
      case UnregisterService(i) =>
        var found := ServiceRegExists(i);
        ExecuteRemoval(c, i, found, answer);
      case SubscribeOwnerChanged(k) =>
        if k in conns {
          Park(c, k, answer);
        } else {
          Complete(c, Outcome(NotFound, None));
        }
      case Invoke(k, noReply) =>
        if noReply {
          ExecuteInvokeNoReply(c, k, answer);
        } else {
          ParkIfConnected(c, k, answer);
        }
      case Subscribe(k) => ParkIfConnected(c, k, answer);
      case RegisterService(k) => ParkIfConnected(c, k, answer);
      case NameHasOwner(k) => ParkIfConnected(c, k, answer);
    }

    /** `execute` of every command class. A command taken in hand is settled by it: it has been parked
        and is kept, or it has had its one completion, or it is one of those that may stay silent.
        `Told` says which completion it is. */
    method Execute(c: Id, answer: Answer)
      requires InStep()
      requires c in memory.cmds && CountsPositive(View())
      modifies this
      ensures InStep()
      ensures View() == Connections.Execute(old(View()), c, answer)
      ensures forall hand: set<Id> :: Ready(old(View()), c, hand) && ExecuteAllowed(old(View()), c) ==>
                Settled(View(), c, hand) && Told(old(View()), View(), c, answer)
    {
      ghost var s := View();
      ExecuteByKind(c, answer);
      hide *;
      forall hand: set<Id> | Ready(s, c, hand) && ExecuteAllowed(s, c)
        ensures Settled(View(), c, hand) && Told(s, View(), c, answer)
      {
        ExecuteSettles(s, c, answer, hand);
        ExecuteTells(s, c, answer, hand);
      }
    }

    method ExecuteByKind(c: Id, answer: Answer)
      requires InStep()
      requires c in memory.cmds && CountsPositive(View())
      modifies this
      ensures InStep()
      ensures View() == Connections.Execute(old(View()), c, answer)
    {
      hide Deliver, Connections.Create, Connections.Release, EmitSignal, Connections.ForceReleaseAll, CancelByHandle;
      match memory.cmds[c].request.kind
      case OpenConnection(isPrivate) => ExecuteOpen(c, isPrivate, answer.opening);
      case CloseConnection(k) =>
        Release(k);
        Complete(c, Outcome(Ok, None));
      case Emit(service) => ExecuteEmit(c, service, answer);
      case Cancel(h) => ExecuteCancel(c, h);
      case ReturnReply(hasContext) =>
        Complete(c, Outcome(if hasContext then answer.status else BadArgs, None));
      case FreeRequestContext =>
      case Shutdown => ExecuteShutdown(c);
      case _ => ExecuteRequest(c, answer);
    }

    /** One turn of `onCommand`: drain a byte, pop the front command, execute it, and delete it
        unless it has arranged to be kept. From a good state the next is good, and the command has met
        its fate: parked and kept, or deleted, once completed or allowed to stay silent. Its client has
        been told what `Told` says. */
    method ExecuteNext(answer: Answer)
      requires pipe == |queue|
      requires queue != [] && CountsPositive(View())
      modifies this
      ensures InStep()
      ensures View() == ExecuteFront(old(View()), answer)
      ensures old(running && Good(View()) && FrontAllowed(View())) ==>
                TurnTaken(old(View()), View(), answer)
    {
      hide Connections.Execute, Delete, Good, FrontAllowed, TurnTaken, Ready, Settled, ExecuteAllowed, CountsPositive;
      ghost var s := View();
      pipe := pipe - 1;
      var c := queue[0];
      queue := queue[1..];
      record := record.(taken := record.taken + [c]);
      TakenOffCounts(s);
      if Alive(c) {
        Execute(c, answer);
        if c in memory.cmds {
          if !memory.cmds[c].keep {
            DeleteCommand(c);
          }
        } else {
          Touched();
        }
      } else {
        Touched();
      }
      if s.core.running && Good(s) && FrontAllowed(s) {
        FrontIsTaken(s, answer);
      }
    }

    /** `onCommand`: a turn for each queued command, those submitted meanwhile included. Reading
        the pipe never blocks: there is a byte for each queued command at the start of every turn. */
    method OnCommand(answers: seq<Answer>)
      requires CountsPositive(View()) && pipe == |queue|
      modifies this
      ensures View() == Turns(old(View()), answers)
      ensures CountsPositive(View()) && pipe == |queue|
      ensures old(Good(View()) && TurnsAllowed(View(), answers)) ==> Good(View())
    {
      hide ExecuteFront, Good, FrontAllowed, Fated;
      ghost var start := View();
      var i := 0;
      while i < |answers| && queue != [] && running
        invariant 0 <= i <= |answers|
        invariant Turns(View(), answers[i..]) == Turns(start, answers)
        invariant CountsPositive(View()) && pipe == |queue|
      {
        ghost var s := View();
        assert answers[i..][0] == answers[i] && answers[i..][1..] == answers[i + 1..];
        TakeNextLockstep(s, answers[i]);
        ExecuteFrontKeepsCounts(s, answers[i]);
        ExecuteNext(answers[i]);
        i := i + 1;
      }
      if Good(start) && TurnsAllowed(start, answers) {
        TurnsAreSteps(start, answers);
      }
    }

    // ----- replies -----

    /** The new subscription or registration goes to its connection; the command has been completed
        once and has let go of it. */
    method HandOver(c: Id, k: Id)
      requires InStep()
      requires k in conns && c in memory.cmds
      modifies this
      ensures InStep()
      ensures View() == Connections.HandOver(old(View()), c, k)
      ensures Answering(old(View()), c, k) && CreatesObject(KindOf(old(View()).core, c)) ==> Answered(View(), c)
    {
      hide Commands.Complete, Answering, Answered, Inv;
      ghost var s := View();
      conns := conns[k := WithObject(conns[k], memory.cmds[c].request.kind, c)];
      Complete(c, Outcome(Ok, Some(c)));
      if c in memory.cmds {
        memory := memory.(cmds := memory.cmds[c := memory.cmds[c].(owns := false)]);
      } else {
        Touched();
      }
      if Answering(s, c, k) && CreatesObject(KindOf(s.core, c)) {
        HandOverAnswers(s, c, k);
      }
    }

    /** The subscription or registration leaves its connection and is freed; the command has been
        completed once. */
    method TakeAway(c: Id, k: Id, i: Id)
      requires InStep()
      requires k in conns && c in memory.cmds
      modifies this
      ensures InStep()
      ensures View() == Connections.TakeAway(old(View()), c, k, i)
      ensures Answering(old(View()), c, k) && Removes(KindOf(old(View()).core, c), i) ==> Answered(View(), c)
    {
      hide Commands.Complete, Answering, Answered, Inv;
      ghost var s := View();
      conns := conns[k := WithoutObject(conns[k], memory.cmds[c].request.kind, i)];
      memory := memory.(objs := memory.objs - {i});
      Complete(c, Outcome(Ok, None));
      if Answering(s, c, k) && Removes(KindOf(s.core, c), i) {
        TakeAwayAnswers(s, c, k, i);
      }
    }

    /** A method return that answers the creation of a subscription or registration. */
    method CreatorReply(c: Id, k: Id, reply: Reply)
      requires InStep()
      requires c in memory.cmds && CreatesObject(memory.cmds[c].request.kind)
      modifies this
      ensures InStep()
      ensures View() == if old(memory).cmds[c].request.kind.RegisterService? then RegistrationReply(old(View()), c, k, reply)
                        else SubscriptionReply(old(View()), c, k, reply)
    {
      hide Deliver, Connections.HandOver;
      if reply.ErrorReply? {
        Complete(c, Outcome(DBusError, None));
      } else if reply.ReturnReply? {
        var registers := memory.cmds[c].request.kind.RegisterService?;
        if registers && !reply.usable {
          Complete(c, Outcome(NoMemory, None));
        } else if registers && !reply.owner {
          Complete(c, Outcome(DBusError, None));
        } else if k !in conns {
          Touched();
        } else if !reply.stored {
          Complete(c, Outcome(NoMemory, None));
        } else {
          HandOver(c, k);
        }
      }
    }

    method RemovalReply(c: Id, k: Id, i: Id, reply: Reply)
      requires InStep()
      requires c in memory.cmds
      modifies this
      ensures InStep()
      ensures old(memory).cmds[c].request.kind == Unsubscribe(i) ==> View() == UnsubscribeReply(old(View()), c, k, i, reply)
      ensures old(memory).cmds[c].request.kind == UnregisterService(i) ==> View() == UnregisterReply(old(View()), c, k, i, reply)
    {
      hide Deliver, Connections.TakeAway;
      if reply.ErrorReply? {
        Complete(c, Outcome(DBusError, None));
      } else if reply.ReturnReply? {
        var removes := memory.cmds[c].request.kind.Unsubscribe?;
        if k !in conns {
          Touched();
        } else if i !in (if removes then conns[k].subs else conns[k].regs) {
          Complete(c, Outcome(BadArgs, None));
        } else {
          TakeAway(c, k, i);
        }
      }
    }

    method PassResult(c: Id, reply: Reply)
      requires InStep()
      modifies this
      ensures InStep()
      ensures View() == ResultReply(old(View()), c, reply)
    {
      hide Deliver;
      if reply.ErrorReply? {
        Complete(c, Outcome(DBusError, None));
      } else if reply.ReturnReply? {
        Complete(c, Outcome(Ok, None));
      }
    }

    method HandleReply(c: Id, k: Id, reply: Reply)
      requires InStep()
      requires c in memory.cmds && WaitsForReply(memory.cmds[c].request.kind)
      modifies this
      ensures InStep()
      ensures View() == ReplyAction(old(View()), c, k, reply)
    {
      hide ResultReply, SubscriptionReply, RegistrationReply, UnsubscribeReply, UnregisterReply;
      match memory.cmds[c].request.kind
      case Unsubscribe(i) => RemovalReply(c, k, i, reply);
      case UnregisterService(i) => RemovalReply(c, k, i, reply);
      case RegisterService(_) => CreatorReply(c, k, reply);
      case Subscribe(_) => CreatorReply(c, k, reply);
      case SubscribeOwnerChanged(_) => CreatorReply(c, k, reply);
      case Invoke(_, _) => PassResult(c, reply);
      case NameHasOwner(_) => PassResult(c, reply);
    }

    /** The connection a notified command works on. */
    method ConnectionOf(kind: Kind) returns (target: Option<Id>)
      ensures target == Target(View().core, kind)
      ensures target.Some? ==> WaitsForReply(kind)
    {
      match kind
      case Unsubscribe(i) =>
        target := if i in memory.cmds && CreatesSubscription(memory.cmds[i].request.kind)
                  then Some(memory.cmds[i].request.kind.conn) else None;
      case UnregisterService(i) =>
        target := if i in memory.cmds && memory.cmds[i].request.kind.RegisterService?
                  then Some(memory.cmds[i].request.kind.conn) else None;
      case Subscribe(k) => target := Some(k);
      case SubscribeOwnerChanged(k) => target := Some(k);
      case RegisterService(k) => target := Some(k);
      case Invoke(k, _) => target := Some(k);
      case NameHasOwner(k) => target := Some(k);
      case _ => target := None;
    }

    method ReplyCannotBeRead(c: Id)
      requires InStep()
      requires c in memory.cmds
      modifies this
      ensures InStep()
      ensures View() == UnreadReply(old(View()), c, old(memory).cmds[c].request.kind)
    {
      hide Deliver, Delete;
      var deletes := DeletesUnread(memory.cmds[c].request.kind);
      Complete(c, Outcome(Internal, None));
      if deletes {
        DeleteCommand(c);
      }
    }

    /** `onPendingCallNotify`, with the command as its user data. A usable reply to a pending command
        leads from a good state to a good one, in which the command has had the outcome it is owed and
        is gone, and of the connections only its own has changed. */
    method OnPendingCallNotify(c: Id, reply: Reply, connected: bool)
      requires InStep()
      modifies this
      ensures InStep()
      ensures View() == Notify(old(View()), c, reply, connected)
      ensures forall k: Id :: old(running && Good(View())) && WaitsOn(old(View()), c, k, reply, connected) ==>
                Good(View()) && AnsweredWith(old(View()), View(), c, k, Owed(KindOf(old(View()).core, c), c, reply))
    {
      ghost var s := View();
      NotifyByKind(c, reply, connected);
      hide *;
      forall k: Id | s.core.running && Good(s) && WaitsOn(s, c, k, reply, connected)
        ensures Good(View()) && AnsweredWith(s, View(), c, k, Owed(KindOf(s.core, c), c, reply))
      {
        AnswerIsGood(s, c, k, reply, connected);
      }
    }

    method NotifyByKind(c: Id, reply: Reply, connected: bool)
      requires InStep()
      modifies this
      ensures InStep()
      ensures View() == Notify(old(View()), c, reply, connected)
    {
      hide ReplyAction, UnreadReply, Delete, UnregisterPending, Target;
      var present := true;
      if Alive(c) {
        var kind := memory.cmds[c].request.kind;
        present := !(kind.Unsubscribe? && kind.sub !in memory.objs) && !(kind.UnregisterService? && kind.reg !in memory.objs);
      }
      if !Alive(c) || !present {
        Touched();
        return;
      }
      var kind := memory.cmds[c].request.kind;
      var target := ConnectionOf(kind);
      if target.None? {
        Touched();
        return;
      }
      var k := target.value;
      memory := memory.(calls := memory.calls[c := Stolen]);
      if CannotRead(kind, reply, connected && k in conns) {
        ReplyCannotBeRead(c);
      } else {
        HandleReply(c, k, reply);
        EraseCommand(k, c);
        DeleteCommand(c);
      }
    }

    // ----- connections with messages to dispatch -----

    /** `onDispatchStatusUpdate` with data remaining: only for a connection that still exists. */
    method OnDataRemains(k: Id)
      modifies this`dispatchList
      ensures dispatchList == if k in conns then old(dispatchList) + [k] else old(dispatchList)
      ensures old(running && Good(View())) ==> Good(View())
    {
      hide Good;
      ghost var s := View();
      if k in conns {
        dispatchList := dispatchList + [k];
        if s.core.running && Good(s) {
          StepKeeps(s, DataRemains(k));
        }
      }
    }

    /** `dispatchPending`: each connection in the list has its messages dispatched, in one round; a
        connection that is done leaves the list, another round comes for one that is added. */
    method DispatchPending(rounds: seq<Round>)
      modifies this`dispatchList
      ensures dispatchList == Sweep(old(dispatchList), 0, rounds)
      ensures old(Good(View())) && ArrivalsCached(conns, rounds) ==> Good(View())
    {
      ghost var s := View();
      var i, n := 0, 0;
      while i < |dispatchList| && n < |rounds|
        invariant 0 <= n <= |rounds|
        invariant Sweep(dispatchList, i, rounds[n..]) == Sweep(old(dispatchList), 0, rounds)
        decreases |rounds| - n
      {
        assert rounds[n..][0] == rounds[n] && rounds[n..][1..] == rounds[n + 1..];
        dispatchList := dispatchList + rounds[n].arrivals;
        if !rounds[n].complete {
          i := i + 1;
        } else {
          dispatchList := dispatchList[..i] + dispatchList[i + 1..];
        }
        n := n + 1;
      }
      if Good(s) && ArrivalsCached(conns, rounds) {
        SweepKeepsGood(s, rounds);
      }
    }

    // ----- the end of the dispatcher -----

    /** The exit section of the dispatcher thread. */
    method ThreadExit()
      modifies this`running
      ensures View() == old(View()).(core := old(View()).core.(running := false))
      ensures old(running && quit && Good(View())) ==> Good(View())
    {
      hide Good;
      ghost var s := View();
      running := false;
      if s.core.running && s.core.quit && Good(s) {
        StepKeeps(s, Step.ThreadExit);
      }
    }

    /** `~Dispatcher`, once the thread is gone: cancel and delete what is still queued. */
    method DestroyDispatcher()
      requires !running
      modifies this
      ensures View() == old(View()).(core := DrainCancelled(old(View()).core))
      ensures queue == []
      ensures old(Good(View())) ==> Good(View()) && QueuedAreCancelled(old(View().core), View().core)
    {
      hide Commands.CancelCommand, Delete, Good, QueuedAreCancelled;
      ghost var s := View();
      while queue != []
        invariant !running && View() == old(View()).(core := View().core)
        invariant DrainCancelled(View().core) == DrainCancelled(old(View()).core)
        decreases |queue|
      {
        var c := queue[0];
        queue := queue[1..];
        record := record.(taken := record.taken + [c]);
        RefusalsKeepQueue(View().core, c);
        CancelCommand(c);
        DeleteCommand(c);
      }
      if Good(s) {
        StepKeeps(s, Step.DestroyDispatcher);
        DrainCancelsQueued(s);
      }
    }
  }

  /** The commands whose `onPendingCallNotify` D-Bus may call. */
  predicate WaitsForReply(kind: Kind) {
    MayPark(kind) || kind.Invoke?
  }

  /** One turn of releasing everything. */
  lemma ReleaseStep(s: State)
    requires CountsPositive(s) && s.conns.Keys != {}
    ensures var k := Least(s.conns.Keys);
            && s.conns[k].refCount > 0
            && var t := Connections.DecRef(s, k);
            && CountsPositive(t) && Connections.ForceReleaseAll(s) == Connections.ForceReleaseAll(t)
            && (s.conns[k].refCount == 1 ==> t.conns.Keys == s.conns.Keys - {k})
            && (s.conns[k].refCount > 1 ==> t.conns.Keys == s.conns.Keys && t.conns[k].refCount == s.conns[k].refCount - 1)
  {
    hide Destroy, Unref;
  }

  lemma ReleaseEnds(s: State)
    requires CountsPositive(s) && s.conns.Keys == {}
    ensures Connections.ForceReleaseAll(s) == s
  {
  }

  lemma SubmitIsEither(a: Core, c: Id, wrote: bool)
    requires IsLive(a, c)
    ensures Submit(a, c, wrote) == if a.running && wrote then Accept(a, c)
                                   else var b := HandleUsed(a); Delete(b.(held := b.held - {c}), c)
  {
  }

  /** The command has been told that it is cancelled, if it can be told at all, and its call will not
      notify any more, but for an owner-changed subscription. */
  ghost predicate CancelledOnce(a: Core, c: Id) {
    && c in a.cmds
    && History(a, c) == (if CancelIsSilent(KindOf(a, c)) then [] else [Outcome(Cancelled, None)])
    && (CanNotify(CallOf(a, c)) ==> KindOf(a, c).SubscribeOwnerChanged?)
  }

  lemma CancelKeepsInv(s: State, c: Id, hand: set<Id>)
    requires Inv(s, hand) && c in hand && History(s.core, c) == []
    ensures var b := Commands.CancelCommand(s.core, c); Inv(s.(core := b), hand) && CancelledOnce(b, c)
  {
    hide CoreInv, LinksOk, RefsOk, ParkedSet, AttachedSet, Commands.CancelCommand, Extends;
    var p, q := ParkedSet(s.core, s.conns), AttachedSet(s.core, s.conns);
    HandIsLive(s.core, c, p, q, hand);
    CancelKeeps(s.core, c, p, q, hand);
    var b := Commands.CancelCommand(s.core, c);
    CancelledIsOnce(s.core, b, c);
    CoreStepKeeps(s, b, hand, hand);
  }

  lemma ExtendsGrowsKindsOnly(a: Core, b: Core)
    requires Extends(a, b)
    ensures KindsGrow(a, b)
  {
  }

  lemma CancelledIsOnce(a: Core, b: Core, c: Id)
    requires IsLive(a, c) && History(a, c) == []
    requires b.calls == CallCleared(a, c).calls
    requires b.history == if CancelIsSilent(KindOf(a, c)) then a.history else a.history[c := [Outcome(Cancelled, None)]]
    requires Extends(a.(history := b.history, calls := CallCleared(a, c).calls), b)
    ensures CancelledOnce(b, c) && KindsGrow(a, b)
  {
    var d := a.(history := b.history, calls := CallCleared(a, c).calls);
    ExtendsGrowsKindsOnly(d, b);
    hide Extends;
    assert CallOf(b, c) == CallOf(CallCleared(a, c), c);
  }

  lemma ConstructionKeeps(s: State, request: Request)
    requires Good(s)
    ensures Good(s.(core := Build(s.core, request)))
  {
    hide Good, Build;
    StepKeeps(s, Construct(request));
  }

  /** A step that is always allowed. */
  lemma StepKeeps(s: State, step: Step)
    requires Good(s) && Enabled(s, step) && !step.TakeNext? && !step.CallNotify?
    ensures Good(Next(s, step))
  {
    NextKeeps(s, step);
  }

  /** The command is pending on `k`, and the reply is one it can use. */
  predicate WaitsOn(s: State, c: Id, k: Id, reply: Reply, connected: bool) {
    k in s.conns && c in s.conns[k].pending && c in s.core.cmds && Usable(KindOf(s.core, c), reply, connected)
  }

  lemma AnswerIsGood(s: State, c: Id, k: Id, reply: Reply, connected: bool)
    requires Good(s) && s.core.running && WaitsOn(s, c, k, reply, connected)
    ensures Good(Notify(s, c, reply, connected))
    ensures AnsweredWith(s, Notify(s, c, reply, connected), c, k, Owed(KindOf(s.core, c), c, reply))
  {
    hide Notify, Inv, AnsweredWith, Owed;
    assert Pending(s, c);
    GoodCmd(s, c);
    ReplyIsAnswered(s, c, k, reply, connected);
    NextKeeps(s, CallNotify(c, reply, connected));
  }

  /** Only connections that still exist are added to the list. */
  predicate ArrivalsCached(conns: map<Id, Conn>, rounds: seq<Round>) {
    forall n :: 0 <= n < |rounds| ==> forall k <- rounds[n].arrivals :: k in conns
  }

  lemma {:induction false} SweepKeepsCached(conns: map<Id, Conn>, list: seq<Id>, i: nat, rounds: seq<Round>)
    requires (forall k <- list :: k in conns) && ArrivalsCached(conns, rounds)
    ensures forall k <- Sweep(list, i, rounds) :: k in conns
    decreases |rounds|
  {
    if i < |list| && rounds != [] {
      var longer := list + rounds[0].arrivals;
      assert forall k <- longer :: k in conns;
      assert forall n :: 0 <= n < |rounds[1..]| ==> rounds[1..][n] == rounds[n + 1];
      if rounds[0].complete {
        SweepKeepsCached(conns, longer[..i] + longer[i + 1..], i, rounds[1..]);
      } else {
        SweepKeepsCached(conns, longer, i + 1, rounds[1..]);
      }
    }
  }

  lemma SweepKeepsGood(s: State, rounds: seq<Round>)
    requires Good(s) && ArrivalsCached(s.conns, rounds)
    ensures Good(s.(dispatchList := Sweep(s.dispatchList, 0, rounds)))
  {
    hide CoreInv, LinksOk, RefsOk, Sweep;
    SweepKeepsCached(s.conns, s.dispatchList, 0, rounds);
  }

  lemma BuiltIsNew(a: Core, request: Request)
    ensures var b := Build(a, request);
            a.nextId in b.cmds && a.nextId in b.live && b.cmds[a.nextId].handle == INVALID_HANDLE
  {
  }

  // ----- what the loop of `onCommand` keeps -----

  lemma DecRefKeepsCounts(s: State, k: Id)
    requires CountsPositive(s) && k in s.conns
    ensures CountsPositive(Connections.DecRef(s, k))
  {
    hide Destroy, Unref;
  }

  lemma CancelKeepsCounts(s: State, h: Uint32)
    requires CountsPositive(s)
    ensures CountsPositive(CancelByHandle(s, h).0)
  {
    hide Commands.CancelCommand, Delete;
  }

  lemma ParkKeepsCounts(s: State, c: Id, k: Id, answer: Answer)
    requires CountsPositive(s) && c in s.core.cmds && k in s.conns
    ensures CountsPositive(Connections.Park(s, c, k, answer))
  {
    hide Commands.Complete;
  }

  lemma ParkIfConnectedKeepsCounts(s: State, c: Id, k: Id, answer: Answer)
    requires CountsPositive(s) && c in s.core.cmds
    ensures CountsPositive(Connections.ParkIfConnected(s, c, k, answer))
  {
    hide Commands.Complete, Connections.Park;
    if k in s.conns {
      ParkKeepsCounts(s, c, k, answer);
    }
  }

  lemma RemovalKeepsCounts(s: State, c: Id, i: Id, found: bool, answer: Answer)
    requires CountsPositive(s) && c in s.core.cmds
    ensures CountsPositive(Connections.ExecuteRemoval(s, c, i, found, answer))
  {
    hide Commands.Complete, Connections.ParkIfConnected;
    if i in s.core.cmds && CreatesObject(KindOf(s.core, i)) {
      ParkIfConnectedKeepsCounts(s, c, KindOf(s.core, i).conn, answer);
    }
  }

  lemma CreateKeepsCounts(s: State, isPrivate: bool, opening: Opening)
    requires CountsPositive(s)
    ensures CountsPositive(Connections.Create(s, isPrivate, opening).0)
  {
  }

  lemma ExecuteKeepsCounts(s: State, c: Id, answer: Answer)
    requires CountsPositive(s) && c in s.core.cmds
    ensures CountsPositive(Connections.Execute(s, c, answer))
  {
    hide Commands.Complete, Connections.ParkIfConnected, Connections.Park, Connections.Create, Connections.DecRef,
      CancelByHandle, Connections.ExecuteRemoval, Connections.ForceReleaseAll;
    match KindOf(s.core, c)
    case OpenConnection(isPrivate) => CreateKeepsCounts(s, isPrivate, answer.opening);
    case CloseConnection(k) => if k in s.conns { DecRefKeepsCounts(s, k); }
    case SubscribeOwnerChanged(k) => if k in s.conns { ParkKeepsCounts(s, c, k, answer); }
    case Subscribe(k) => ParkIfConnectedKeepsCounts(s, c, k, answer);
    case RegisterService(k) => ParkIfConnectedKeepsCounts(s, c, k, answer);
    case Invoke(k, _) => ParkIfConnectedKeepsCounts(s, c, k, answer);
    case NameHasOwner(k) => ParkIfConnectedKeepsCounts(s, c, k, answer);
    case Unsubscribe(i) => RemovalKeepsCounts(s, c, i, SubscriptionExists(s, i), answer);
    case UnregisterService(i) => RemovalKeepsCounts(s, c, i, ServiceExists(s, i), answer);
    case Cancel(h) => CancelKeepsCounts(s, h);
    case _ =>
  }

  lemma ExecuteFrontKeepsCounts(s: State, answer: Answer)
    requires CountsPositive(s) && s.core.queue != [] && s.core.pipe > 0
    ensures CountsPositive(ExecuteFront(s, answer))
  {
    hide Connections.Execute;
    if IsLive(TakenOff(s).core, s.core.queue[0]) {
      ExecuteKeepsCounts(TakenOff(s), s.core.queue[0], answer);
    }
  }

  // ----- the loop of `onCommand` as part of a run -----

  function TurnSteps(s: State, answers: seq<Answer>): seq<Step>
    decreases |answers|
  {
    if answers == [] || !CanTurn(s) then [] else [TakeNext(answers[0])] + TurnSteps(ExecuteFront(s, answers[0]), answers[1..])
  }

  /** The front command may be executed, as far as the library's assumptions go. */
  /** Whatever was queued in `a` is deleted in `b`, and told of its cancellation if it is told anything. */
  ghost predicate QueuedAreCancelled(a: Core, b: Core) {
    forall c :: c in a.queue && c in a.cmds ==>
      && c !in b.live
      && History(b, c) ==
         if a.cmds[c].request.kind.FreeRequestContext? || a.cmds[c].request.kind.Shutdown? then []
         else [Outcome(Cancelled, None)]
  }

  lemma DrainCancelsQueued(s: State)
    requires Good(s) && !s.core.running
    ensures QueuedAreCancelled(s.core, DrainCancelled(s.core))
  {
    var p, q := ParkedSet(s.core, s.conns), AttachedSet(s.core, s.conns);
    assert CoreInv(s.core, p, q, {});
    hide CoreInv, DrainCancelled;
    forall c | c in s.core.queue
      ensures c in s.core.cmds && c !in DrainCancelled(s.core).live
      ensures History(DrainCancelled(s.core), c) ==
              if KindOf(s.core, c).FreeRequestContext? || KindOf(s.core, c).Shutdown? then [] else [Outcome(Cancelled, None)]
    {
      Shutdowns.DrainTellsCancelled(s.core, p, q, c);
    }
  }

  ghost predicate FrontAllowed(s: State) {
    s.core.queue != [] && s.core.pipe > 0 && s.core.queue[0] in s.core.cmds && ExecuteAllowed(TakenOff(s), s.core.queue[0])
  }

  ghost predicate TurnsAllowed(s: State, answers: seq<Answer>)
    decreases |answers|
  {
    answers == [] || !CanTurn(s) || (FrontAllowed(s) && TurnsAllowed(ExecuteFront(s, answers[0]), answers[1..]))
  }

  /** What `onCommand` does from a good state is a run of single executions, as long as each command may
      be executed when its turn comes; so all that holds of runs holds of it. */
  lemma {:induction false} TurnsAreSteps(s: State, answers: seq<Answer>)
    requires Good(s) && TurnsAllowed(s, answers)
    ensures Run(s, TurnSteps(s, answers)) && After(s, TurnSteps(s, answers)) == Turns(s, answers)
    ensures Good(Turns(s, answers))
    decreases |answers|
  {
    if answers != [] && CanTurn(s) {
      TurnIsAStep(s, answers[0]);
      hide ExecuteFront, Allowed, Good, FrontAllowed;
      var t := ExecuteFront(s, answers[0]);
      assert TurnSteps(s, answers)[1..] == TurnSteps(t, answers[1..]);
      TurnsAreSteps(t, answers[1..]);
    }
  }

  lemma TurnIsAStep(s: State, answer: Answer)
    requires Good(s) && CanTurn(s) && FrontAllowed(s)
    ensures Enabled(s, TakeNext(answer)) && Allowed(s, TakeNext(answer))
    ensures Next(s, TakeNext(answer)) == ExecuteFront(s, answer) && Good(ExecuteFront(s, answer))
  {
    hide Good, ExecuteFront, ExecuteAllowed;
    NextKeeps(s, TakeNext(answer));
  }

  /** Where a command stands after its turn: parked and kept, not completed yet; or deleted, and then
      completed once, unless it may stay silent. */
  ghost predicate Fated(t: State, c: Id) {
    c in t.core.cmds &&
    if t.core.cmds[c].keep then c in t.core.live && Pending(t, c) && History(t.core, c) == []
    else c !in t.core.live && !Pending(t, c) && (MayStaySilent(KindOf(t.core, c)) || |History(t.core, c)| == 1)
  }

  lemma TakenOffCounts(s: State)
    requires s.core.queue != [] && s.core.pipe > 0 && CountsPositive(s)
    ensures CountsPositive(TakenOff(s))
  {
  }

  lemma FrontIsFated(s: State, answer: Answer)
    requires Good(s) && CountsPositive(s) && s.core.running && s.core.queue != [] && s.core.pipe > 0 && FrontAllowed(s)
    ensures Good(ExecuteFront(s, answer)) && Fated(ExecuteFront(s, answer), s.core.queue[0])
  {
    hide Connections.Execute, ExecuteAllowed, Fated, Settled, Ready, Inv;
    TurnIsAStep(s, answer);
    PoppedReady(s);
    var c := s.core.queue[0];
    ExecuteSettles(TakenOff(s), c, answer, {c});
    SettledIsFated(Connections.Execute(TakenOff(s), c, answer), c);
  }

  /** From `s` to `t` the front command has met its fate, and its client has been told the outcome that
      the conditions give. */
  ghost predicate TurnTaken(s: State, t: State, answer: Answer)
    requires s.core.queue != [] && s.core.pipe > 0
  {
    var c := s.core.queue[0];
    Good(t) && Fated(t, c) && c in s.core.cmds && Told(TakenOff(s), t, c, answer)
  }

  lemma FrontIsTaken(s: State, answer: Answer)
    requires Good(s) && CountsPositive(s) && s.core.running && s.core.queue != [] && s.core.pipe > 0 && FrontAllowed(s)
    ensures TurnTaken(s, ExecuteFront(s, answer), answer)
  {
    hide Good, Told, ExecuteFront, ExecuteAllowed, Fated;
    FrontIsFated(s, answer);
    FrontTells(s, answer);
  }

  lemma SettledIsFated(u: State, c: Id)
    requires Settled(u, c, {c})
    ensures c in u.core.cmds && Fated(if u.core.cmds[c].keep then u else Dispose(u, c), c)
  {
    ParkedMeansPending(u.core, u.conns, c);
    if u.core.cmds[c].keep {
      assert {c} - {c} == {};
      assert CmdOk(u.core, ParkedSet(u.core, u.conns), AttachedSet(u.core, u.conns), {}, c);
    }
  }

  lemma ExecuteFrontTakesOne(s: State, answer: Answer)
    requires CountsPositive(s) && s.core.queue != [] && s.core.pipe > 0
    ensures ExecuteFront(s, answer).core.taken == s.core.taken + [s.core.queue[0]]
  {
    hide Connections.Execute, CmdProgress;
    if IsLive(TakenOff(s).core, s.core.queue[0]) {
      ExecuteSteady(TakenOff(s), s.core.queue[0], answer);
    }
  }

  /** The loop never gives up on an empty pipe: it ends when nothing is queued any more or the
      dispatcher has stopped, for as many turns as D-Bus has answers. */
  lemma {:induction false} TurnsEndWhenDone(s: State, answers: seq<Answer>)
    requires CountsPositive(s) && s.core.pipe == |s.core.queue|
    ensures var t := Turns(s, answers);
            t.core.queue == [] || !t.core.running || |t.core.taken| == |s.core.taken| + |answers|
    decreases |answers|
  {
    hide ExecuteFront, CountsPositive;
    if answers != [] && CanTurn(s) {
      ExecuteFrontTakesOne(s, answers[0]);
      TakeNextLockstep(s, answers[0]);
      ExecuteFrontKeepsCounts(s, answers[0]);
      TurnsEndWhenDone(ExecuteFront(s, answers[0]), answers[1..]);
    }
  }
}
