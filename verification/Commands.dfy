/** Commands, the dispatcher's queue and the objects commands own.

    A client thread builds a command, `submitCommand` queues it, the dispatcher thread executes
    it, and some later event completes and deletes it. `Core` is everything of that story that
    does not need the connection cache. Objects are named by identities that are never reused;
    touching an object that has been deleted raises `fault`. */
module Commands {
  import opened Handles
  import opened Wrappers

  type Id = nat

  datatype Code =
    | Ok | NoMemory | BadArgs | Internal | DBusError
    | NotConnected | Cancelled | ConnSend | NotFound

  /** What a completion delivers: the error code and the handle written back, if any. */
  datatype Outcome = Outcome(code: Code, handle: Option<Id>)

  /** A subscription or registration has the identity of the command that created it. */
  datatype Kind =
    | OpenConnection(isPrivate: bool)
    | CloseConnection(conn: Id)
    | Subscribe(conn: Id)
    | SubscribeOwnerChanged(conn: Id)
    | Unsubscribe(sub: Id)
    | RegisterService(conn: Id)
    | UnregisterService(reg: Id)
    | Invoke(conn: Id, noReplyExpected: bool)
    | NameHasOwner(conn: Id)
    | Emit(service: Option<Id>)
    | Cancel(target: Uint32)
    | ReturnReply(hasContext: bool)
    | FreeRequestContext
    | Shutdown

  /** A request as a client states it. `callback` lists what the user's completion callback
      submits through the asynchronous interface when it is invoked. */
  datatype Request = Request(kind: Kind, sync: bool, callback: seq<Submission>)

  /** One submission; `wrote` says whether the byte could be written to the dispatcher's pipe. */
  datatype Submission = Submission(request: Request, wrote: bool)

  /** A command object. `serial` counts calls of `getNextHandle`; it is 0 while the command has
      not been accepted. `keep` is the negation of `execAndDestroy`; `owns` says that the command
      still owns the subscription or registration it created. */
  datatype Cmd = Cmd(request: Request, handle: Uint32, serial: nat, keep: bool, owns: bool)

  /** The D-Bus pending call of a command. Only a waiting or a completed call can still notify. */
  datatype Call = NoCall | Unarmed | Waiting | Completed | Stolen | CallCancelled

  datatype Core = Core(
    cmds: map<Id, Cmd>,          // every command ever built; the record outlives the object
    nextId: Id,
    live: set<Id>,               // command objects not yet deleted
    held: set<Id>,               // built by a client, not yet handed to the dispatcher
    queue: seq<Id>,
    pipe: nat,                   // bytes in the dispatcher's pipe
    counter: Uint32,             // mCmdHandleCounter
    issued: nat,                 // calls of getNextHandle so far
    accepted: seq<Id>,           // in acceptance order
    taken: seq<Id>,              // in the order the dispatcher took them off the queue
    running: bool,
    quit: bool,
    calls: map<Id, Call>,
    objs: set<Id>,               // live subscriptions and registrations
    history: map<Id, seq<Outcome>>,  // completions delivered to each command
    fault: bool)

  const EMPTY_CORE := Core(map[], 0, {}, {}, [], 0, INVALID_HANDLE, 0, [], [], true, false, map[], {}, map[], false)

  // ----- classification of commands -----

  predicate CreatesSubscription(kind: Kind) {
    kind.Subscribe? || kind.SubscribeOwnerChanged?
  }

  predicate CreatesObject(kind: Kind) {
    CreatesSubscription(kind) || kind.RegisterService?
  }

  /** The seven families that may park on a connection until a reply arrives. */
  predicate MayPark(kind: Kind) {
    CreatesObject(kind) || kind.Unsubscribe? || kind.UnregisterService? || kind.NameHasOwner?
    || (kind.Invoke? && !kind.noReplyExpected)
  }

  /** Commands that inherit the do-nothing `cancel` of the base class. */
  predicate CancelIsSilent(kind: Kind) {
    kind.FreeRequestContext? || kind.Shutdown?
  }

  /** Commands that, by design, may be deleted without a completion. */
  predicate MayStaySilent(kind: Kind) {
    CancelIsSilent(kind) || (kind.Emit? && kind.service.None?) || (kind.Invoke? && kind.noReplyExpected)
  }

  /** The submissions made by the user's callback. A synchronous request posts a semaphore
      instead, and four kinds have no callback at all. */
  function CallbackOf(request: Request): seq<Submission> {
    if request.sync || request.kind.CloseConnection? || request.kind.Cancel? || CancelIsSilent(request.kind)
    then [] else request.callback
  }

  // ----- reading the state -----

  function History(a: Core, c: Id): seq<Outcome> {
    if c in a.history then a.history[c] else []
  }

  function CallOf(a: Core, c: Id): Call {
    if c in a.calls then a.calls[c] else NoCall
  }

  predicate CanNotify(call: Call) {
    call.Waiting? || call.Completed?
  }

  predicate IsLive(a: Core, c: Id) {
    c in a.live && c in a.cmds
  }

  function KindOf(a: Core, c: Id): Kind
    requires c in a.cmds
  {
    a.cmds[c].request.kind
  }

  // ----- elementary operations -----

  function Fault(a: Core): Core {
    a.(fault := true)
  }

  /** The constructor of a command. */
  function Build(a: Core, request: Request): Core {
    var c := a.nextId;
    var creates := CreatesObject(request.kind);
    a.(cmds := a.cmds[c := Cmd(request, INVALID_HANDLE, 0, false, creates)],
       nextId := c + 1,
       live := a.live + {c},
       held := a.held + {c},
       objs := if creates then a.objs + {c} else a.objs)
  }

  /** `delete`: the destructor frees the subscription or registration the command still owns. */
  function Delete(a: Core, c: Id): Core {
    if !IsLive(a, c) then Fault(a)
    else a.(live := a.live - {c}, objs := if a.cmds[c].owns then a.objs - {c} else a.objs)
  }

  /** The accepting branch of `submitCommand`. */
  function Accept(a: Core, c: Id): Core
    requires c in a.cmds
  {
    var h := NextHandle(a.counter);
    a.(counter := h,
       issued := a.issued + 1,
       queue := a.queue + [c],
       pipe := a.pipe + 1,
       accepted := a.accepted + [c],
       held := a.held - {c},
       cmds := a.cmds[c := a.cmds[c].(handle := h, serial := a.issued + 1)])
  }

  /** A submission that was refused; its submitter deletes the command. A failed write to the
      pipe has used up a handle. */
  function Refuse(a: Core, c: Id): Core
  {
    var b := if a.running then a.(counter := NextHandle(a.counter), issued := a.issued + 1) else a;
    Delete(b.(held := b.held - {c}), c)
  }

  /** `DBUSIPC_submitCmd` together with `Dispatcher::submitCommand`. */
  function Submit(a: Core, c: Id, wrote: bool): Core
  {
    if !IsLive(a, c) then Fault(a)
    else if a.running && wrote then Accept(a, c)
    else Refuse(a, c)
  }

  /** Submissions made one after the other, each building its command first. */
  function SubmitAll(a: Core, submissions: seq<Submission>): (b: Core)
    decreases |submissions|
  {
    if submissions == [] then a
    else
      var built := Build(a, submissions[0].request);
      SubmitAll(Submit(built, a.nextId, submissions[0].wrote), submissions[1..])
  }

  /** `dispatch`/`dispatchResult`/`dispatchStatus`: deliver the outcome, then run the callback. */
  function Complete(a: Core, c: Id, outcome: Outcome): Core {
    if !IsLive(a, c) then Fault(a)
    else SubmitAll(a.(history := a.history[c := History(a, c) + [outcome]]), CallbackOf(a.cmds[c].request))
  }

  /** The effect of `cancel` on the pending call: a completed call has its reply stolen, any
      other call is cancelled. */
  function CancelledCall(call: Call): Call {
    match call
    case NoCall => NoCall
    case Completed => Stolen
    case Stolen => Stolen
    case _ => CallCancelled
  }

  function SetCall(a: Core, c: Id, call: Call): Core {
    if call.NoCall? then a else a.(calls := a.calls[c := call])
  }

  /** `cancel` of each command class. Only the owner-changed subscription leaves its call alone. */
  function CancelCommand(a: Core, c: Id): Core {
    if !IsLive(a, c) then Fault(a)
    else
      var kind := KindOf(a, c);
      var b := if kind.SubscribeOwnerChanged? then a else SetCall(a, c, CancelledCall(CallOf(a, c)));
      if CancelIsSilent(kind) then b else Complete(b, c, Outcome(Cancelled, None))
  }

  predicate IsLeast(s: set<Id>, m: Id) {
    m in s && forall x <- s :: m <= x
  }

  /** The least element of a set of identities: where an ordered container starts. */
  function Least(s: set<Id>): (m: Id)
    requires s != {}
    ensures m in s && forall x <- s :: m <= x
  {
    LeastExists(s);
    var m :| IsLeast(s, m);
    m
  }

  lemma {:induction false} LeastExists(s: set<Id>)
    requires s != {}
    ensures exists m :: IsLeast(s, m)
  {
    hide IsLeast;
    var y :| y in s;
    if s == {y} {
      LeastOfOne(y);
    } else {
      LeastExists(s - {y});
      var m :| IsLeast(s - {y}, m);
      LeastOfMore(s - {y}, m, y);
      assert s - {y} + {y} == s;
    }
  }

  lemma LeastOfOne(y: Id)
    ensures IsLeast({y}, y)
  {
  }

  lemma LeastOfMore(s: set<Id>, m: Id, y: Id)
    requires IsLeast(s, m)
    ensures IsLeast(s + {y}, if y <= m then y else m)
  {
  }

  /** Cancel and delete every command of a pending set, in container order. */
  function CancelAll(a: Core, pending: set<Id>): (b: Core)
    decreases pending
  {
    if pending == {} then a
    else
      var c := Least(pending);
      CancelAll(Delete(CancelCommand(a, c), c), pending - {c})
  }

  /** `~Dispatcher`: cancel and delete whatever is still queued. */
  function DrainCancelled(a: Core): (b: Core)
    requires !a.running
    decreases |a.queue|
  {
    if a.queue == [] then a
    else
      var c := a.queue[0];
      var b := a.(queue := a.queue[1..], taken := a.taken + [c]);
      RefusalsKeepQueue(b, c);
      DrainCancelled(Delete(CancelCommand(b, c), c))
  }

  /** Once the dispatcher thread has stopped, nothing a callback submits is accepted. */
  lemma {:induction false} SubmitAllWhileStopped(a: Core, submissions: seq<Submission>)
    requires !a.running
    ensures var b := SubmitAll(a, submissions);
            b.queue == a.queue && !b.running && b.accepted == a.accepted
    decreases |submissions|
  {
    if submissions != [] {
      var built := Build(a, submissions[0].request);
      SubmitAllWhileStopped(Submit(built, a.nextId, submissions[0].wrote), submissions[1..]);
    }
  }

  lemma RefusalsKeepQueue(a: Core, c: Id)
    requires !a.running
    ensures var b := Delete(CancelCommand(a, c), c);
            b.queue == a.queue && !b.running
  {
    if IsLive(a, c) && !CancelIsSilent(KindOf(a, c)) {
      var b := if KindOf(a, c).SubscribeOwnerChanged? then a else SetCall(a, c, CancelledCall(CallOf(a, c)));
      SubmitAllWhileStopped(b.(history := b.history[c := History(b, c) + [Outcome(Cancelled, None)]]),
                            CallbackOf(b.cmds[c].request));
    }
  }
}
