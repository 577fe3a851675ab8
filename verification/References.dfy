/** The count of a connection as its clients see it: how often it has been opened and closed. */
module References {
  import opened Handles
  import opened Commands
  import opened Wrappers
  import opened Connections
  import opened Invariant
  import opened Runs
  import opened Guarantees

  function Count(s: State, k: Id): nat {
    if k in s.conns then s.conns[k].refCount else 0
  }

  /** The same wrappers with the same counts. */
  ghost predicate SameCounts(s: State, t: State) {
    t.conns.Keys == s.conns.Keys && forall k :: k in s.conns ==> t.conns[k].refCount == s.conns[k].refCount
  }

  lemma SameCountsMeans(s: State, t: State, k: Id)
    requires SameCounts(s, t)
    ensures Count(t, k) == Count(s, k)
  {
  }

  // ----- operations that leave the counts alone -----

  lemma ParkSame(s: State, c: Id, k: Id, answer: Answer)
    requires k in s.conns && c in s.core.cmds
    ensures SameCounts(s, Park(s, c, k, answer))
  {
    hide Complete;
  }

  lemma ParkIfConnectedSame(s: State, c: Id, k: Id, answer: Answer)
    requires c in s.core.cmds
    ensures SameCounts(s, ParkIfConnected(s, c, k, answer))
  {
    hide Complete, Park;
    if k in s.conns {
      ParkSame(s, c, k, answer);
    }
  }

  lemma RemovalSame(s: State, c: Id, i: Id, found: bool, answer: Answer)
    requires c in s.core.cmds
    ensures SameCounts(s, ExecuteRemoval(s, c, i, found, answer))
  {
    hide Complete, ParkIfConnected;
    if i in s.core.cmds && CreatesObject(KindOf(s.core, i)) {
      ParkIfConnectedSame(s, c, KindOf(s.core, i).conn, answer);
    }
  }

  lemma CancelSame(s: State, h: Uint32)
    ensures SameCounts(s, CancelByHandle(s, h).0)
  {
    hide CancelCommand, Delete;
    if ConnsMatching(s, h) != {} {
      assert Least(ConnsMatching(s, h)) in s.conns;
    }
  }

  lemma ExecuteSame(s: State, c: Id, answer: Answer)
    requires c in s.core.cmds && CountsPositive(s)
    requires var kind := KindOf(s.core, c); !kind.OpenConnection? && !kind.CloseConnection? && !kind.Shutdown?
    ensures SameCounts(s, Execute(s, c, answer))
  {
    hide Complete, ParkIfConnected, Park, CancelByHandle, ExecuteRemoval;
    match KindOf(s.core, c)
    case Cancel(h) => CancelSame(s, h);
    case Subscribe(k) => ParkIfConnectedSame(s, c, k, answer);
    case SubscribeOwnerChanged(k) => if k in s.conns { ParkSame(s, c, k, answer); }
    case RegisterService(k) => ParkIfConnectedSame(s, c, k, answer);
    case Invoke(k, _) => ParkIfConnectedSame(s, c, k, answer);
    case NameHasOwner(k) => ParkIfConnectedSame(s, c, k, answer);
    case Unsubscribe(i) => RemovalSame(s, c, i, SubscriptionExists(s, i), answer);
    case UnregisterService(i) => RemovalSame(s, c, i, ServiceExists(s, i), answer);
    case _ =>
  }

  lemma HandOverSame(s: State, c: Id, k: Id)
    requires c in s.core.cmds && k in s.conns
    ensures SameCounts(s, HandOver(s, c, k))
  {
    hide Complete;
  }

  lemma TakeAwaySame(s: State, c: Id, k: Id, i: Id)
    requires c in s.core.cmds && k in s.conns
    ensures SameCounts(s, TakeAway(s, c, k, i))
  {
    hide Complete;
  }

  lemma ReplyActionSame(s: State, c: Id, k: Id, reply: Reply)
    requires c in s.core.cmds
    ensures SameCounts(s, ReplyAction(s, c, k, reply))
  {
    hide Complete, HandOver, TakeAway;
    if k in s.conns {
      HandOverSame(s, c, k);
      match KindOf(s.core, c)
      case Unsubscribe(i) => TakeAwaySame(s, c, k, i);
      case UnregisterService(i) => TakeAwaySame(s, c, k, i);
      case _ =>
    }
  }

  lemma NotifySame(s: State, c: Id, reply: Reply, connected: bool)
    ensures SameCounts(s, Notify(s, c, reply, connected))
  {
    hide ReplyAction, Complete, Delete;
    if IsLive(s.core, c) && Target(s.core, KindOf(s.core, c)).Some? {
      ReplyActionSame(s.(core := SetCall(s.core, c, Stolen)), c, Target(s.core, KindOf(s.core, c)).value, reply);
    }
  }

  // ----- opening and closing -----

  predicate Executes(s: State, step: Step, c: Id) {
    step.TakeNext? && s.core.queue != [] && s.core.queue[0] == c && IsLive(s.core, c)
  }

  /** The step executes a command that opens a connection, and its client is given the handle `k`. */
  predicate Opens(s: State, step: Step, k: Id)
    requires Enabled(s, step)
  {
    step.TakeNext? && Executes(s, step, s.core.queue[0]) && KindOf(s.core, s.core.queue[0]).OpenConnection?
    && Create(TakenOff(s), KindOf(s.core, s.core.queue[0]).isPrivate, step.answer.opening).1.handle == Some(k)
  }

  /** The step executes a command that closes the connection `k`, which is still there. */
  predicate Closes(s: State, step: Step, k: Id)
    requires Enabled(s, step)
  {
    step.TakeNext? && Executes(s, step, s.core.queue[0]) && KindOf(s.core, s.core.queue[0]) == CloseConnection(k) && k in s.conns
  }

  predicate ShutsDown(s: State, step: Step)
    requires Enabled(s, step)
  {
    step.TakeNext? && Executes(s, step, s.core.queue[0]) && KindOf(s.core, s.core.queue[0]).Shutdown?
  }

  lemma CreateCounts(s: State, isPrivate: bool, opening: Opening, k: Id)
    requires s.core.nextId !in s.conns
    ensures var (t, o) := Create(s, isPrivate, opening);
            Count(t, k) == Count(s, k) + if o.handle == Some(k) then 1 else 0
  {
  }

  lemma ReleaseCounts(s: State, j: Id, k: Id)
    requires CountsPositive(s)
    ensures Count(Release(s, j), k) == Count(s, k) - if j == k && k in s.conns then 1 else 0
  {
    hide Destroy, Unref;
  }

  /** What executing the front command does to the count of a connection. */
  lemma ExecuteCounts(s: State, c: Id, answer: Answer, k: Id)
    requires c in s.core.cmds && CountsPositive(s) && s.core.nextId !in s.conns && !KindOf(s.core, c).Shutdown?
    ensures var kind := KindOf(s.core, c);
            Count(Execute(s, c, answer), k)
            == Count(s, k)
               + (if kind.OpenConnection? && Create(s, kind.isPrivate, answer.opening).1.handle == Some(k) then 1 else 0)
               - (if kind == CloseConnection(k) && k in s.conns then 1 else 0)
  {
    var kind := KindOf(s.core, c);
    if kind.OpenConnection? {
      hide Complete, Create;
      CreateCounts(s, kind.isPrivate, answer.opening, k);
    } else if kind.CloseConnection? {
      hide Complete, Release;
      ReleaseCounts(s, kind.conn, k);
    } else {
      hide Execute;
      ExecuteSame(s, c, answer);
      SameCountsMeans(s, Execute(s, c, answer), k);
    }
  }

  lemma FrontCounts(s: State, answer: Answer, k: Id)
    requires s.core.queue != [] && s.core.pipe > 0 && CountsPositive(s)
    ensures Count(ExecuteFront(s, answer), k)
            == if IsLive(s.core, s.core.queue[0]) then Count(Execute(TakenOff(s), s.core.queue[0], answer), k) else Count(s, k)
  {
    hide Execute, Delete;
  }

  lemma TakeNextCounts(s: State, answer: Answer, k: Id)
    requires Good(s) && Enabled(s, TakeNext(answer)) && !ShutsDown(s, TakeNext(answer))
    ensures CountsPositive(s)
    ensures Count(ExecuteFront(s, answer), k)
            == Count(s, k) + (if Opens(s, TakeNext(answer), k) then 1 else 0) - (if Closes(s, TakeNext(answer), k) then 1 else 0)
  {
    InvCounts(s, {});
    FreshIdIsUncached(s, {});
    hide Good, Execute, Create, ExecuteFront;
    FrontCounts(s, answer, k);
    if IsLive(s.core, s.core.queue[0]) {
      ExecuteCounts(TakenOff(s), s.core.queue[0], answer, k);
    }
  }

  lemma NextCounts(s: State, step: Step, k: Id)
    requires Good(s) && Enabled(s, step) && !ShutsDown(s, step)
    ensures Count(Next(s, step), k)
            == Count(s, k) + (if Opens(s, step, k) then 1 else 0) - (if Closes(s, step, k) then 1 else 0)
  {
    hide Good, ExecuteFront, Notify, Submit, DrainCancelled, Create;
    match step
    case TakeNext(answer) => TakeNextCounts(s, answer, k);
    case CallNotify(c, reply, connected) =>
      NotifySame(s, c, reply, connected);
      SameCountsMeans(s, Notify(s, c, reply, connected), k);
    case DestroyDispatcher =>
    case _ =>
  }

  // ----- over a whole run -----

  /** How often `k` has been given to a client, less how often it has been closed while cached. */
  ghost function Balance(s: State, steps: seq<Step>, k: Id): int
    requires Run(s, steps)
    decreases |steps|
  {
    if steps == [] then 0
    else
      (if Opens(s, steps[0], k) then 1 else 0) - (if Closes(s, steps[0], k) then 1 else 0) + Balance(Next(s, steps[0]), steps[1..], k)
  }

  ghost predicate NoShutdown(s: State, steps: seq<Step>)
    requires Run(s, steps)
    decreases |steps|
  {
    steps == [] || (!ShutsDown(s, steps[0]) && NoShutdown(Next(s, steps[0]), steps[1..]))
  }

  lemma {:induction false} RunCounts(s: State, steps: seq<Step>, k: Id)
    requires Good(s) && Run(s, steps) && NoShutdown(s, steps)
    ensures Count(After(s, steps), k) == Count(s, k) + Balance(s, steps, k)
    decreases |steps|
  {
    hide Good, Enabled, Allowed, Next, Opens, Closes, ShutsDown, Count;
    if steps != [] {
      NextKeeps(s, steps[0]);
      NextCounts(s, steps[0], k);
      RunCounts(Next(s, steps[0]), steps[1..], k);
    }
  }

  /** Until a shutdown executes, a connection is there exactly while it has been given to clients more
      often than they have closed it; the difference is the count of its wrapper and the number of
      references held on the underlying connection. */
  lemma OpensLessCloses(steps: seq<Step>, k: Id)
    requires Run(INITIAL, steps) && NoShutdown(INITIAL, steps)
    ensures var s, n := After(INITIAL, steps), Balance(INITIAL, steps, k);
            && n >= 0 && (k in s.conns <==> n > 0)
            && (k in s.conns ==> s.conns[k].refCount == n == RefsOn(s.refs, s.conns[k].dbus))
  {
    InitialIsGood();
    ReachableIsGood(steps);
    RunCounts(INITIAL, steps, k);
    hide Run, After, Balance, NoShutdown;
    CountedByRefs(After(INITIAL, steps), k);
  }

  lemma CountedByRefs(s: State, k: Id)
    requires Good(s)
    ensures k in s.conns <==> Count(s, k) > 0
    ensures k in s.conns ==> s.conns[k].refCount == RefsOn(s.refs, s.conns[k].dbus)
  {
  }
}
