/** The connection cache, the execution of commands and the handling of replies. */
module Connections {
  import opened Handles
  import opened Commands
  import opened Wrappers

  /** A connection wrapper in the cache. `creates` and `releases` count the calls that obtained it
      and the effective releases; `refCount` is the wrapper's own counter. */
  datatype Conn = Conn(
    dbus: nat, isPrivate: bool, refCount: nat, creates: nat, releases: nat,
    pending: set<Id>, subs: set<Id>, regs: set<Id>)

  /** `conns` is the static cache, `refs` the references this library holds on each underlying
      D-Bus connection, `dispatchList` the connections with messages left to dispatch. */
  datatype State = State(core: Core, conns: map<Id, Conn>, refs: map<nat, nat>, dispatchList: seq<Id>)

  type Failure = c: Code | !c.Ok? witness NoMemory

  /** What sending a reply gives. */
  type SendStatus = c: Code | c.Ok? || c.NotConnected? || c.NoMemory? witness Ok

  /** What opening the underlying connection gives: an error, or a connection whose set-up
      (watches, timeouts, filter) succeeds or not. */
  datatype Opening = OpenFailed(code: Failure) | Opened(dbus: nat, setUp: bool)

  /** How D-Bus answers the calls one `execute` makes. */
  datatype Answer = Answer(
    connected: bool, message: bool, append: bool, send: bool, notify: bool, register: bool,
    opening: Opening, status: SendStatus)

  /** The reply stolen from a pending call. `usable` says that its arguments could be read,
      `owner` that the requested bus name is now owned, `stored` that the new subscription or
      registration could be inserted. */
  datatype Reply = NullReply | ErrorReply | ReturnReply(usable: bool, owner: bool, stored: bool) | OtherReply

  const INITIAL := State(EMPTY_CORE, map[], map[], [])

  // ----- looking things up -----

  predicate SubscriptionExists(s: State, i: Id) {
    exists k :: k in s.conns && i in s.conns[k].subs
  }

  predicate ServiceExists(s: State, i: Id) {
    exists k :: k in s.conns && i in s.conns[k].regs
  }

  predicate Connected(s: State, k: Id, answer: Answer) {
    k in s.conns && answer.connected
  }

  function RefsOn(refs: map<nat, nat>, d: nat): nat {
    if d in refs then refs[d] else 0
  }

  /** The connection a command works on: its own, or that of the object it names. */
  function Target(a: Core, kind: Kind): Option<Id> {
    match kind
    case Subscribe(k) => Some(k)
    case SubscribeOwnerChanged(k) => Some(k)
    case RegisterService(k) => Some(k)
    case Invoke(k, _) => Some(k)
    case NameHasOwner(k) => Some(k)
    case Unsubscribe(i) =>
      if i in a.cmds && CreatesSubscription(KindOf(a, i)) then Some(KindOf(a, i).conn) else None
    case UnregisterService(i) =>
      if i in a.cmds && KindOf(a, i).RegisterService? then Some(KindOf(a, i).conn) else None
    case _ => None
  }

  // ----- small updates -----

  function Raise(s: State): State {
    s.(core := Fault(s.core))
  }

  function Deliver(s: State, c: Id, outcome: Outcome): State {
    s.(core := Complete(s.core, c, outcome))
  }

  function Fail(s: State, c: Id, code: Code): State {
    Deliver(s, c, Outcome(code, None))
  }

  function Dispose(s: State, c: Id): State {
    s.(core := Delete(s.core, c))
  }

  function WithConn(s: State, k: Id, conn: Conn): State {
    s.(conns := s.conns[k := conn])
  }

  function UnregisterPending(s: State, k: Id, c: Id): State {
    if k !in s.conns then Raise(s)
    else WithConn(s, k, s.conns[k].(pending := s.conns[k].pending - {c}))
  }

  function Unref(s: State, d: nat): State {
    if RefsOn(s.refs, d) == 0 then Raise(s) else s.(refs := s.refs[d := s.refs[d] - 1])
  }

  // ----- creating and releasing connections -----

  function CachedOn(s: State, d: nat): (found: set<Id>)
    ensures forall k :: k in found <==> k in s.conns && s.conns[k].dbus == d
  {
    set k | k in s.conns && s.conns[k].dbus == d
  }

  function AddRef(s: State, d: nat): State {
    s.(refs := s.refs[d := RefsOn(s.refs, d) + 1])
  }

  /** The connection is already cached: another reference to the same wrapper. */
  function Share(s: State, k: Id): State
    requires k in s.conns
  {
    var conn := s.conns[k];
    WithConn(s, k, conn.(refCount := conn.refCount + 1, creates := conn.creates + 1))
  }

  /** A new wrapper enters the cache and the dispatcher's list. */
  function Enter(s: State, d: nat, isPrivate: bool): State {
    var k := s.core.nextId;
    WithConn(s, k, Conn(d, isPrivate, 1, 1, 0, {}, {}, {}))
      .(core := s.core.(nextId := k + 1), dispatchList := s.dispatchList + [k])
  }

  /** Both overloads of `create`, from the moment D-Bus has answered. */
  function Create(s: State, isPrivate: bool, opening: Opening): (State, Outcome) {
    match opening
    case OpenFailed(code) => (s, Outcome(code, None))
    case Opened(d, setUp) =>
      var t := AddRef(s, d);
      if CachedOn(s, d) != {} then
        var k := Least(CachedOn(s, d));
        (Share(t, k), Outcome(Ok, Some(k)))
      else if !setUp then (Unref(t, d), Outcome(DBusError, None))
      else (Enter(t, d, isPrivate), Outcome(Ok, Some(s.core.nextId)))
  }

  function Without(list: seq<Id>, k: Id): (r: seq<Id>)
    ensures forall x :: x in r <==> x in list && x != k
  {
    if list == [] then [] else (if list[0] == k then [] else [list[0]]) + Without(list[1..], k)
  }

  /** The last reference is gone: out of the cache, then the destructor. */
  function Destroy(s: State, k: Id): (t: State)
    requires k in s.conns
    ensures t.conns == s.conns - {k}
  {
    var conn := s.conns[k];
    var t := Unref(s.(conns := s.conns - {k}), conn.dbus);
    var a := CancelAll(t.core, conn.pending);
    t.(core := a.(objs := a.objs - conn.subs - conn.regs), dispatchList := Without(s.dispatchList, k))
  }

  function DecRef(s: State, k: Id): (t: State)
    requires k in s.conns && s.conns[k].refCount > 0
    ensures s.conns[k].refCount == 1 ==> t.conns == s.conns - {k}
    ensures s.conns[k].refCount > 1 ==>
              t.conns == s.conns[k := s.conns[k].(refCount := s.conns[k].refCount - 1, releases := s.conns[k].releases + 1)]
  {
    var conn := s.conns[k];
    if conn.refCount == 1 then Destroy(s, k)
    else
      Unref(WithConn(s, k, conn.(refCount := conn.refCount - 1, releases := conn.releases + 1)), conn.dbus)
  }

  predicate CountsPositive(s: State) {
    forall k :: k in s.conns ==> s.conns[k].refCount > 0
  }

  function Release(s: State, k: Id): (t: State)
    requires CountsPositive(s)
  {
    if k in s.conns then DecRef(s, k) else s
  }

  /** Drop references on the first cached connection until the cache is empty. */
  function ForceReleaseAll(s: State): (t: State)
    requires CountsPositive(s)
    ensures t.conns == map[]
    decreases |s.conns.Keys|, if s.conns.Keys == {} then 0 else s.conns[Least(s.conns.Keys)].refCount
  {
    if s.conns.Keys == {} then s
    else
      var k := Least(s.conns.Keys);
      var t := DecRef(s, k);
      assert if s.conns[k].refCount == 1 then t.conns.Keys == s.conns.Keys - {k} else t.conns.Keys == s.conns.Keys;
      ForceReleaseAll(t)
  }

  // ----- cancelling by handle -----

  /** The pending commands of connection `k` that carry the handle. */
  function Matching(s: State, k: Id, handle: Uint32): (m: set<Id>)
    requires k in s.conns
    ensures forall c :: c in m <==> c in s.conns[k].pending && c in s.core.cmds && s.core.cmds[c].handle == handle
  {
    set c | c in s.conns[k].pending && c in s.core.cmds && s.core.cmds[c].handle == handle
  }

  function ConnsMatching(s: State, handle: Uint32): (m: set<Id>)
    ensures forall k :: k in m <==> k in s.conns && Matching(s, k, handle) != {}
  {
    set k | k in s.conns && Matching(s, k, handle) != {}
  }

  function CancelByHandle(s: State, handle: Uint32): (State, Code) {
    if ConnsMatching(s, handle) == {} then (s, NotFound)
    else
      var k := Least(ConnsMatching(s, handle));
      var c := Least(Matching(s, k, handle));
      var t := s.(core := Delete(CancelCommand(s.core, c), c));
      (UnregisterPending(t, k, c), Ok)
  }

  // ----- executing a command -----

  /** The common tail of the parking families: build the request, send it, ask to be notified
      and register as pending on the connection. */
  function Park(s: State, c: Id, k: Id, answer: Answer): (t: State)
    requires k in s.conns && c in s.core.cmds
  {
    if !answer.message || !answer.append || !answer.send then Fail(s, c, NoMemory)
    else if !answer.notify then Fail(s.(core := SetCall(s.core, c, Unarmed)), c, NoMemory)
    else if !answer.register then Fail(s.(core := SetCall(s.core, c, CallCancelled)), c, NoMemory)
    else
      var a := SetCall(s.core, c, Waiting);
      WithConn(s, k, s.conns[k].(pending := s.conns[k].pending + {c}))
        .(core := a.(cmds := a.cmds[c := a.cmds[c].(keep := true)]))
  }

  function ParkIfConnected(s: State, c: Id, k: Id, answer: Answer): (t: State)
    requires c in s.core.cmds
  {
    if !Connected(s, k, answer) then Fail(s, c, NotConnected) else Park(s, c, k, answer)
  }

  /** `execute` of a command that asks for nothing back. */
  function SendOnly(s: State, c: Id, k: Id, answer: Answer): State {
    if !Connected(s, k, answer) then Fail(s, c, NotConnected)
    else if !answer.message || !answer.append || !answer.send then Fail(s, c, NoMemory)
    else s
  }

  function EmitSignal(s: State, c: Id, service: Option<Id>, answer: Answer): State {
    match service
    case None => s
    case Some(i) =>
      if i !in s.core.objs || i !in s.core.cmds || !CreatesObject(KindOf(s.core, i)) then Raise(s)
      else if !answer.message || !answer.append then Fail(s, c, NoMemory)
      else if !Connected(s, KindOf(s.core, i).conn, answer) then Fail(s, c, NotConnected)
      else if !answer.send then Fail(s, c, ConnSend)
      else Fail(s, c, Ok)
  }

  /** Unsubscribing reads the connection out of the subscription, but only after checking that
      some cached connection still holds it. */
  function ExecuteRemoval(s: State, c: Id, i: Id, exists': bool, answer: Answer): (t: State)
    requires c in s.core.cmds
  {
    if !exists' then Fail(s, c, NotFound)
    else if i !in s.core.objs || i !in s.core.cmds || !CreatesObject(KindOf(s.core, i)) then Raise(s)
    else ParkIfConnected(s, c, KindOf(s.core, i).conn, answer)
  }

  function Execute(s: State, c: Id, answer: Answer): (t: State)
    requires c in s.core.cmds && CountsPositive(s)
  {
    match KindOf(s.core, c)
    case OpenConnection(isPrivate) =>
      var (t, outcome) := Create(s, isPrivate, answer.opening);
      Deliver(t, c, outcome)
    case CloseConnection(k) => Fail(Release(s, k), c, Ok)
    case Subscribe(k) => ParkIfConnected(s, c, k, answer)
    case SubscribeOwnerChanged(k) => if k !in s.conns then Fail(s, c, NotFound) else Park(s, c, k, answer)
    case Unsubscribe(i) => ExecuteRemoval(s, c, i, SubscriptionExists(s, i), answer)
    case RegisterService(k) => ParkIfConnected(s, c, k, answer)
    case UnregisterService(i) => ExecuteRemoval(s, c, i, ServiceExists(s, i), answer)
    case Invoke(k, noReply) => if noReply then SendOnly(s, c, k, answer) else ParkIfConnected(s, c, k, answer)
    case NameHasOwner(k) => ParkIfConnected(s, c, k, answer)
    case Emit(service) => EmitSignal(s, c, service, answer)
    case Cancel(h) =>
      var (t, code) := CancelByHandle(s, h);
      Fail(t, c, code)
    case ReturnReply(hasContext) => Fail(s, c, if hasContext then answer.status else BadArgs)
    case FreeRequestContext => s
    case Shutdown =>
      var t := ForceReleaseAll(s);
      Fail(t.(core := t.core.(quit := true)), c, Ok)
  }

  /** One turn of the loop in `onCommand`: drain a byte, pop, execute, delete unless kept. */
  function ExecuteFront(s: State, answer: Answer): (t: State)
    requires s.core.queue != [] && s.core.pipe > 0
    requires CountsPositive(s)
  {
    var c := s.core.queue[0];
    var popped := s.(core := s.core.(queue := s.core.queue[1..], pipe := s.core.pipe - 1, taken := s.core.taken + [c]));
    if !IsLive(popped.core, c) then Raise(popped)
    else
      var t := Execute(popped, c, answer);
      if c !in t.core.cmds then Raise(t)
      else if t.core.cmds[c].keep then t else Dispose(t, c)
  }

  // ----- replies -----

  /** `auto_ptr::release`. */
  function Disown(s: State, c: Id): State {
    if c !in s.core.cmds then Raise(s)
    else s.(core := s.core.(cmds := s.core.cmds[c := s.core.cmds[c].(owns := false)]))
  }

  /** The connection with the object created by `c` added to the set its kind belongs in. */
  function WithObject(conn: Conn, kind: Kind, c: Id): Conn {
    if kind.RegisterService? then conn.(regs := conn.regs + {c}) else conn.(subs := conn.subs + {c})
  }

  /** The new object goes to the connection: insert it, report its handle, then let go of it. */
  function HandOver(s: State, c: Id, k: Id): State
    requires k in s.conns && c in s.core.cmds
  {
    Disown(Deliver(WithConn(s, k, WithObject(s.conns[k], KindOf(s.core, c), c)), c, Outcome(Ok, Some(c))), c)
  }

  /** The connection with the object that `kind` removes taken out of its set. */
  function WithoutObject(conn: Conn, kind: Kind, i: Id): Conn {
    if kind.UnregisterService? then conn.(regs := conn.regs - {i}) else conn.(subs := conn.subs - {i})
  }

  /** Take the object away, free it, and report success. */
  function TakeAway(s: State, c: Id, k: Id, i: Id): State
    requires k in s.conns && c in s.core.cmds
  {
    var t := WithConn(s, k, WithoutObject(s.conns[k], KindOf(s.core, c), i));
    Fail(t.(core := t.core.(objs := t.core.objs - {i})), c, Ok)
  }

  function SubscriptionReply(s: State, c: Id, k: Id, reply: Reply): State
    requires c in s.core.cmds
  {
    match reply
    case ErrorReply => Fail(s, c, DBusError)
    case ReturnReply(_, _, stored) =>
      if k !in s.conns then Raise(s)
      else if !stored then Fail(s, c, NoMemory)
      else HandOver(s, c, k)
    case _ => s
  }

  function RegistrationReply(s: State, c: Id, k: Id, reply: Reply): State
    requires c in s.core.cmds
  {
    match reply
    case ErrorReply => Fail(s, c, DBusError)
    case ReturnReply(usable, owner, stored) =>
      if !usable then Fail(s, c, NoMemory)
      else if !owner then Fail(s, c, DBusError)
      else if k !in s.conns then Raise(s)
      else if !stored then Fail(s, c, NoMemory)
      else HandOver(s, c, k)
    case _ => s
  }

  /** An unsubscribe reply: on success the subscription leaves its connection and is freed. */
  function UnsubscribeReply(s: State, c: Id, k: Id, i: Id, reply: Reply): State
    requires c in s.core.cmds
  {
    match reply
    case ErrorReply => Fail(s, c, DBusError)
    case ReturnReply(_, _, _) =>
      if k !in s.conns then Raise(s)
      else if i !in s.conns[k].subs then Fail(s, c, BadArgs)
      else TakeAway(s, c, k, i)
    case _ => s
  }

  function UnregisterReply(s: State, c: Id, k: Id, i: Id, reply: Reply): State
    requires c in s.core.cmds
  {
    match reply
    case ErrorReply => Fail(s, c, DBusError)
    case ReturnReply(_, _, _) =>
      if k !in s.conns then Raise(s)
      else if i !in s.conns[k].regs then Fail(s, c, BadArgs)
      else TakeAway(s, c, k, i)
    case _ => s
  }

  function ResultReply(s: State, c: Id, reply: Reply): State {
    match reply
    case ErrorReply => Fail(s, c, DBusError)
    case ReturnReply(_, _, _) => Fail(s, c, Ok)
    case _ => s
  }

  /** The branch every notification takes when it cannot use the reply. */
  predicate CannotRead(kind: Kind, reply: Reply, connected: bool) {
    reply.NullReply? || (CreatesObject(kind) && !connected)
  }

  /** In that branch three families delete the command and four leave it as it is. */
  predicate DeletesUnread(kind: Kind) {
    CreatesSubscription(kind) || kind.Invoke?
  }

  /** What each family does with a reply it could read. */
  function ReplyAction(s: State, c: Id, k: Id, reply: Reply): (t: State)
    requires c in s.core.cmds
  {
    match KindOf(s.core, c)
    case Unsubscribe(i) => UnsubscribeReply(s, c, k, i, reply)
    case UnregisterService(i) => UnregisterReply(s, c, k, i, reply)
    case RegisterService(_) => RegistrationReply(s, c, k, reply)
    case Invoke(_, _) => ResultReply(s, c, reply)
    case NameHasOwner(_) => ResultReply(s, c, reply)
    case _ => SubscriptionReply(s, c, k, reply)
  }

  function UnreadReply(s: State, c: Id, kind: Kind): State {
    var t := Fail(s, c, Internal);
    if DeletesUnread(kind) then Dispose(t, c) else t
  }

  /** The two removing families start by reading the connection out of the object they remove. */
  predicate NotifyReadsFreed(a: Core, c: Id)
    requires c in a.cmds
  {
    match KindOf(a, c)
    case Unsubscribe(i) => i !in a.objs
    case UnregisterService(i) => i !in a.objs
    case _ => false
  }

  /** `onPendingCallNotify` of each family, called with the command as its user data. */
  function Notify(s: State, c: Id, reply: Reply, connected: bool): State {
    if !IsLive(s.core, c) || NotifyReadsFreed(s.core, c) then Raise(s)
    else
      var kind := KindOf(s.core, c);
      var target := Target(s.core, kind);
      if target.None? then Raise(s)
      else
        var k := target.value;
        var u := s.(core := SetCall(s.core, c, Stolen));
        if CannotRead(kind, reply, connected && k in s.conns) then UnreadReply(u, c, kind)
        else Dispose(UnregisterPending(ReplyAction(u, c, k, reply), k, c), c)
  }
}
