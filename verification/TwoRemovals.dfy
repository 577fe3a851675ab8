/** A run, from the very start, that gets two removals of one subscription parked: all its steps but the
    last are ones that the library allows for. */
module TwoRemovals {
  import opened Commands
  import opened Connections
  import opened Runs
  import opened Guarantees
  import opened Shutdowns
  import opened Removals

  const STORED := Reply.ReturnReply(true, true, true)

  ghost predicate Quiet(s: State) {
    s.core.running && s.core.queue == [] && s.core.pipe == 0 && !s.core.fault
  }

  /** Only the connection `k` is there, with nothing pending on it. */
  ghost predicate Connection(s: State, k: Id) {
    Quiet(s) && s.conns.Keys == {k} && s.conns[k].pending == {} && k < s.core.nextId
  }

  /** ... and it has the subscription `i`. */
  ghost predicate Subscribed(s: State, k: Id, i: Id) {
    && Connection(s, k) && i in s.conns[k].subs && i in s.core.objs && i < s.core.nextId
    && i in s.core.cmds && KindOf(s.core, i) == Subscribe(k)
  }

  lemma Opens(s: State)
    requires Quiet(s) && s.conns == map[]
    ensures var n, queued := s.core.nextId, Submitted(s, SyncRequest(OpenConnection(false)));
            && queued.core.queue == [n] && queued.core.pipe == 1 && CountsPositive(queued)
            && Connection(ExecuteFront(queued, OPENED), n + 1) && ExecuteFront(queued, OPENED).core.nextId == n + 2
  {
    assert CachedOn(TakenOff(Submitted(s, SyncRequest(OpenConnection(false)))), 7) == {};
  }

  /** The request is parked on the connection. */
  ghost predicate ParkedOn(t: State, k: Id, c: Id, kind: Kind) {
    && Quiet(t) && t.conns.Keys == {k} && t.conns[k].pending == {c} && k < t.core.nextId
    && IsLive(t.core, c) && c < t.core.nextId && KindOf(t.core, c) == kind && CallOf(t.core, c).Waiting?
  }

  lemma Subscribes(s: State, k: Id)
    requires Connection(s, k) && CountsPositive(s)
    ensures var n, queued := s.core.nextId, Submitted(s, SyncRequest(Subscribe(k)));
            && queued.core.queue == [n] && queued.core.pipe == 1 && CountsPositive(queued)
            && var t := ExecuteFront(queued, OPENED);
            && ParkedOn(t, k, n, Subscribe(k)) && t.core.nextId == n + 1 && n in t.core.objs && t.core.cmds[n].owns
            && t.core.cmds[n].request.sync
  {
  }

  lemma Answers(t: State, k: Id, c: Id)
    requires ParkedOn(t, k, c, Subscribe(k)) && c in t.core.objs && t.core.cmds[c].owns && t.core.cmds[c].request.sync
    ensures Subscribed(Notify(t, c, STORED, true), k, c)
    ensures Notify(t, c, STORED, true).core.nextId == t.core.nextId
  {
    assert SubmitAll(t.core, []) == t.core;
  }

  /** Two commands that remove `i` are queued, and nothing is pending. */
  ghost predicate BothQueued(s: State, k: Id, i: Id, n: Id) {
    && s.core.running && s.core.queue == [n, n + 1] && s.core.pipe == 2 && !s.core.fault
    && s.conns.Keys == {k} && s.conns[k].pending == {} && i in s.conns[k].subs && i in s.core.objs && i < s.core.nextId
    && i in s.core.cmds && KindOf(s.core, i) == Subscribe(k) && i < n && s.core.nextId == n + 2
    && Unsubscribes(s, n, i) && Unsubscribes(s, n + 1, i)
  }

  predicate Unsubscribes(s: State, c: Id, i: Id) {
    IsLive(s.core, c) && KindOf(s.core, c) == Unsubscribe(i) && !s.core.cmds[c].owns
  }

  lemma BothAreQueued(s: State, k: Id, i: Id)
    requires Subscribed(s, k, i)
    ensures BothQueued(Submitted(Submitted(s, SyncRequest(Unsubscribe(i))), SyncRequest(Unsubscribe(i))), k, i, s.core.nextId)
  {
  }

  /** The first is parked, the second is at the front. */
  ghost predicate OneParked(s: State, k: Id, i: Id, n: Id) {
    && s.core.running && s.core.queue == [n + 1] && s.core.pipe == 1 && s.core.nextId == n + 2
    && s.conns.Keys == {k} && s.conns[k].pending == {n} && ParkedRemoval(s, n, k, i) && KindOf(s.core, n) == Unsubscribe(i)
    && Unsubscribes(s, n + 1, i) && i in s.core.cmds && KindOf(s.core, i) == Subscribe(k) && i < n
  }

  lemma FirstParks(s: State, k: Id, i: Id, n: Id)
    requires BothQueued(s, k, i, n) && CountsPositive(s)
    ensures OneParked(ExecuteFront(s, OPENED), k, i, n)
  {
    assert SubscriptionExists(TakenOff(s), i);
  }

  lemma SecondParks(s: State, k: Id, i: Id, n: Id)
    requires OneParked(s, k, i, n) && CountsPositive(s)
    ensures BothParked(ExecuteFront(s, OPENED), n, n + 1, k, i)
  {
    assert SubscriptionExists(TakenOff(s), i);
  }

  lemma FirstIsAllowed(s: State, k: Id, i: Id, n: Id)
    requires BothQueued(s, k, i, n)
    ensures Enabled(s, TakeNext(OPENED)) && Allowed(s, TakeNext(OPENED))
  {
  }

  lemma SecondIsNotAllowed(s: State, k: Id, i: Id, n: Id)
    requires OneParked(s, k, i, n)
    ensures Enabled(s, TakeNext(OPENED)) && !Allowed(s, TakeNext(OPENED))
  {
  }

  // ----- the run -----

  function Unsubscribing(n: Id, i: Id): seq<Step> {
    var request := SyncRequest(Unsubscribe(i));
    [Construct(request)] + ([HandIn(n, true)] + ([Construct(request)] + ([HandIn(n + 1, true)] + ([TakeNext(OPENED)] + []))))
  }

  function Subscribing(n: Id, k: Id): seq<Step> {
    [Construct(SyncRequest(Subscribe(k)))] + ([HandIn(n, true)] + ([TakeNext(OPENED)]
    + ([CallNotify(n, STORED, true)] + Unsubscribing(n + 1, n))))
  }

  function Opening(n: Id): seq<Step> {
    [Construct(SyncRequest(OpenConnection(false)))] + ([HandIn(n, true)] + ([TakeNext(OPENED)] + Subscribing(n + 2, n + 1)))
  }

  lemma SubmittedNext(s: State, request: Request)
    requires s.core.running
    ensures Submitted(s, request).core.nextId == s.core.nextId + 1 && Submitted(s, request).core.running
  {
  }

  lemma NoSteps(s: State)
    ensures Run(s, []) && After(s, []) == s
  {
  }

  /** A command that is executed as soon as it has been handed in. */
  function Performed(s: State, request: Request): State
    requires Performable(s, request)
  {
    ExecuteFront(Submitted(s, request), OPENED)
  }

  predicate Performable(s: State, request: Request) {
    Submitted(s, request).core.queue == [s.core.nextId] && Submitted(s, request).core.pipe > 0 && CountsPositive(Submitted(s, request))
  }

  lemma QueuedIsAllowed(s: State, request: Request)
    requires Performable(s, request) && s.core.running && (request.kind.Subscribe? || request.kind.OpenConnection?)
    ensures var q := Submitted(s, request);
            Enabled(q, TakeNext(OPENED)) && Allowed(q, TakeNext(OPENED)) && Next(q, TakeNext(OPENED)) == Performed(s, request)
  {
    hide ExecuteFront;
  }

  lemma PerformedFirst(s: State, request: Request, rest: seq<Step>)
    requires Good(s) && s.core.running && Performable(s, request) && (request.kind.Subscribe? || request.kind.OpenConnection?)
    ensures Good(Performed(s, request))
    ensures var steps := [Construct(request)] + ([HandIn(s.core.nextId, true)] + ([TakeNext(OPENED)] + rest));
            Run(Performed(s, request), rest) ==> Run(s, steps) && After(s, steps) == After(Performed(s, request), rest)
  {
    hide Good, Performable, Performed, Submitted, Run, After, Enabled, Allowed, Next;
    QueuedIsAllowed(s, request);
    SubmittedIsGood(s, request);
    var queued := Submitted(s, request);
    NextKeeps(queued, TakeNext(OPENED));
    if Run(Performed(s, request), rest) {
      OneStepFirst(queued, TakeNext(OPENED), rest);
      SubmissionFirst(s, request, [TakeNext(OPENED)] + rest);
    }
  }

  lemma AnswerIsAllowed(t: State, k: Id, c: Id)
    requires ParkedOn(t, k, c, Subscribe(k))
    ensures Enabled(t, CallNotify(c, STORED, true)) && Allowed(t, CallNotify(c, STORED, true))
  {
  }

  lemma FirstUnsubscription(s: State, k: Id, i: Id, n: Id)
    requires Good(s) && BothQueued(s, k, i, n)
    ensures Run(s, [TakeNext(OPENED)] + []) && OneParked(After(s, [TakeNext(OPENED)] + []), k, i, n)
  {
    hide Good, BothQueued, OneParked, Run, After, Enabled, Allowed, ExecuteFront;
    GoodCounts(s);
    FirstIsAllowed(s, k, i, n);
    FirstParks(s, k, i, n);
    NoSteps(Next(s, TakeNext(OPENED)));
    OneStepFirst(s, TakeNext(OPENED), []);
  }

  lemma UnsubscribingRuns(s: State, k: Id, i: Id)
    requires Good(s) && Subscribed(s, k, i)
    ensures var n := s.core.nextId; Run(s, Unsubscribing(n, i)) && OneParked(After(s, Unsubscribing(n, i)), k, i, n)
  {
    hide Good, BothQueued, OneParked, Run, After, Submitted;
    var request, n := SyncRequest(Unsubscribe(i)), s.core.nextId;
    BothAreQueued(s, k, i);
    SubmittedNext(s, request);
    hide Subscribed;
    var once := Submitted(s, request);
    SubmittedIsGood(s, request);
    SubmittedIsGood(once, request);
    FirstUnsubscription(Submitted(once, request), k, i, n);
    SubmissionFirst(once, request, [TakeNext(OPENED)] + []);
    SubmissionFirst(s, request, [Construct(request)] + ([HandIn(n + 1, true)] + ([TakeNext(OPENED)] + [])));
  }

  lemma AnswerRuns(t: State, k: Id, c: Id)
    requires Good(t) && ParkedOn(t, k, c, Subscribe(k)) && c in t.core.objs && t.core.cmds[c].owns && t.core.cmds[c].request.sync
    requires t.core.nextId == c + 1
    ensures var steps := [CallNotify(c, STORED, true)] + Unsubscribing(c + 1, c);
            Run(t, steps) && OneParked(After(t, steps), k, c, c + 1)
  {
    hide Good, Subscribed, OneParked, Run, After, Enabled, Allowed, Notify, Unsubscribing;
    AnswerIsAllowed(t, k, c);
    Answers(t, k, c);
    NextKeeps(t, CallNotify(c, STORED, true));
    UnsubscribingRuns(Notify(t, c, STORED, true), k, c);
    OneStepFirst(t, CallNotify(c, STORED, true), Unsubscribing(c + 1, c));
  }

  lemma SubscribingRuns(s: State, k: Id)
    requires Good(s) && Connection(s, k)
    ensures var n := s.core.nextId; Run(s, Subscribing(n, k)) && OneParked(After(s, Subscribing(n, k)), k, n, n + 1)
  {
    hide Good, OneParked, Run, After, ExecuteFront, Submitted, Unsubscribing, ParkedOn;
    GoodCounts(s);
    Subscribes(s, k);
    var request, n := SyncRequest(Subscribe(k)), s.core.nextId;
    var rest := [CallNotify(n, STORED, true)] + Unsubscribing(n + 1, n);
    assert Performable(s, request);
    PerformedFirst(s, request, rest);
    AnswerRuns(Performed(s, request), k, n);
  }

  lemma OpeningRuns(s: State)
    requires Good(s) && Quiet(s) && s.conns == map[]
    ensures var n := s.core.nextId; Run(s, Opening(n)) && OneParked(After(s, Opening(n)), n + 1, n + 2, n + 3)
  {
    hide Good, OneParked, Run, After, ExecuteFront, Submitted, Subscribing, Connection;
    Opens(s);
    var request, n := SyncRequest(OpenConnection(false)), s.core.nextId;
    assert Performable(s, request);
    PerformedFirst(s, request, Subscribing(n + 2, n + 1));
    SubscribingRuns(Performed(s, request), n + 1);
  }

  /** From the start: open a connection, subscribe, and hand in two unsubscriptions. Once the first is
      parked, the second can be executed, which is just what the library does not allow for; and then
      both are waiting for their replies. */
  lemma TwoRemovalsCanBeParked()
    ensures Run(INITIAL, Opening(0))
    ensures var s := After(INITIAL, Opening(0));
            && Enabled(s, TakeNext(OPENED)) && !Allowed(s, TakeNext(OPENED))
            && CountsPositive(s) && BothParked(ExecuteFront(s, OPENED), 3, 4, 1, 2)
  {
    StartRuns();
    hide Run, After, ExecuteFront, OneParked, BothParked;
    var s := After(INITIAL, Opening(0));
    ReachableIsGood(Opening(0));
    hide Good;
    GoodCounts(s);
    SecondIsNotAllowed(s, 1, 2, 3);
    SecondParks(s, 1, 2, 3);
  }

  lemma StartRuns()
    ensures Run(INITIAL, Opening(0)) && OneParked(After(INITIAL, Opening(0)), 1, 2, 3)
  {
    InitialIsGood();
    hide Good, Run, After, OneParked, Opening;
    OpeningRuns(INITIAL);
  }
}
