/** A run, from the very start, that loses an accepted command: a connection is opened behind the
    shutdown, and its completion callback invokes a method on it. */
module OpenedTooLate {
  import opened Commands
  import opened Wrappers
  import opened Connections
  import opened Invariant
  import opened Runs
  import opened Shutdowns

  /** Asynchronous, with a callback that invokes a method on the connection `k`. */
  function OpenThenInvoke(k: Id): Request {
    Request(OpenConnection(false), false, [Submission(Request(Invoke(k, false), false, []), true)])
  }

  /** The shutdown is `n`, the opening `n + 1`; the connection opened is `n + 2`, the invocation `n + 3`. */
  function TooLate(n: Id): seq<Step> {
    [Construct(SyncRequest(Shutdown))] + ([HandIn(n, true)] + TooLateOpening(n))
  }

  function TooLateOpening(n: Id): seq<Step> {
    [Construct(OpenThenInvoke(n + 2))] + ([HandIn(n + 1, true)] + ([TakeNext(OPENED)] + ([TakeNext(OPENED)] + UNANSWERED)))
  }

  ghost predicate Idle(s: State) {
    s.core.running && s.core.queue == [] && s.core.pipe == 0 && s.conns == map[]
  }

  ghost predicate BothQueued(s: State, n: Id) {
    && s.core.running && s.core.queue == [n, n + 1] && s.core.pipe == 2 && s.conns == map[] && s.core.nextId == n + 2
    && IsLive(s.core, n) && s.core.cmds[n].request == SyncRequest(Shutdown)
    && IsLive(s.core, n + 1) && s.core.cmds[n + 1].request == OpenThenInvoke(n + 2)
  }

  ghost predicate OpeningQueued(s: State, n: Id) {
    && s.core.running && s.core.quit && s.core.queue == [n + 1] && s.core.pipe == 1 && s.conns == map[]
    && s.core.nextId == n + 2 && IsLive(s.core, n + 1) && s.core.cmds[n + 1].request == OpenThenInvoke(n + 2)
    && !s.core.cmds[n + 1].keep
  }

  lemma BothAreQueued(s: State)
    requires Idle(s)
    ensures BothQueued(Submitted(Submitted(s, SyncRequest(Shutdown)), OpenThenInvoke(s.core.nextId + 2)), s.core.nextId)
    ensures var t := Submitted(Submitted(s, SyncRequest(Shutdown)), OpenThenInvoke(s.core.nextId + 2));
            !t.core.cmds[s.core.nextId].keep && !t.core.cmds[s.core.nextId + 1].keep
  {
  }

  lemma ShutdownGoesFirst(s: State, n: Id)
    requires BothQueued(s, n) && CountsPositive(s) && !s.core.cmds[n].keep && !s.core.cmds[n + 1].keep
    ensures OpeningQueued(ExecuteFront(s, OPENED), n)
  {
    assert ForceReleaseAll(TakenOff(s)) == TakenOff(s);
    hide ForceReleaseAll;
  }

  lemma OneSubmission(a: Core, submission: Submission)
    ensures SubmitAll(a, [submission]) == Submit(Build(a, submission.request), a.nextId, submission.wrote)
  {
    assert [submission][1..] == [];
    hide Submit, Build;
  }

  lemma OpeningOpens(p: State, n: Id)
    requires p.conns == map[] && p.core.nextId == n + 2
    ensures var (t, o) := Create(p, false, OPENED.opening);
            o == Outcome(Ok, Some(n + 2)) && t.core == p.core.(nextId := n + 3) && n + 2 in t.conns
  {
    assert CachedOn(p, 7) == {};
  }

  lemma CallbackInvokes(t: State, n: Id, o: Outcome)
    requires t.core.running && t.core.quit && t.core.queue == [] && t.core.pipe == 0 && t.core.nextId == n + 3 && n + 2 in t.conns
    requires IsLive(t.core, n + 1) && t.core.cmds[n + 1].request == OpenThenInvoke(n + 2) && !t.core.cmds[n + 1].keep
    ensures var u := Deliver(t, n + 1, o);
            OnlyInvocationQueued(u, n + 3, n + 2) && n + 1 in u.core.cmds && !u.core.cmds[n + 1].keep
  {
    OneSubmission(t.core.(history := t.core.history[n + 1 := History(t.core, n + 1) + [o]]), OpenThenInvoke(n + 2).callback[0]);
    hide SubmitAll;
  }

  lemma InvocationStays(u: State, done: Id, c: Id, k: Id)
    requires OnlyInvocationQueued(u, c, k) && done != c
    ensures OnlyInvocationQueued(Dispose(u, done), c, k)
  {
  }

  lemma OpeningInvokes(s: State, n: Id)
    requires OpeningQueued(s, n) && CountsPositive(s)
    ensures OnlyInvocationQueued(ExecuteFront(s, OPENED), n + 3, n + 2)
  {
    var p := TakenOff(s);
    OpeningOpens(p, n);
    hide Create, Deliver, CountsPositive;
    var r := Create(p, false, OPENED.opening);
    CallbackInvokes(r.0, n, r.1);
    InvocationStays(Deliver(r.0, n + 1, r.1), n + 1, n + 3, n + 2);
    assert Execute(p, n + 1, OPENED) == Deliver(r.0, n + 1, r.1);
    hide Execute, Dispose, OnlyInvocationQueued;
  }

  /** Commands that neither remove an object nor emit a signal are always allowed. */
  lemma PlainIsAllowed(s: State, answer: Answer)
    requires Enabled(s, TakeNext(answer)) && s.core.queue[0] in s.core.cmds
    requires var kind := KindOf(s.core, s.core.queue[0]); kind.Shutdown? || kind.OpenConnection? || kind.Invoke?
    ensures Allowed(s, TakeNext(answer))
  {
  }

  lemma BothTaken(s: State, n: Id)
    requires Good(s) && BothQueued(s, n) && !s.core.cmds[n].keep && !s.core.cmds[n + 1].keep
    ensures var steps := [TakeNext(OPENED)] + ([TakeNext(OPENED)] + UNANSWERED);
            Run(s, steps) && Ended(After(s, steps).core) && !NobodyIsLost(After(s, steps).core)
  {
    hide Good, Inv, ExecuteFront, NobodyIsLost, OwedCompletion, Run, After, NoOpenAfterQuit, Allowed;
    GoodCounts(s);
    PlainIsAllowed(s, OPENED);
    NextKeeps(s, TakeNext(OPENED));
    ShutdownGoesFirst(s, n);
    var t := ExecuteFront(s, OPENED);
    GoodCounts(t);
    PlainIsAllowed(t, OPENED);
    NextKeeps(t, TakeNext(OPENED));
    OpeningInvokes(t, n);
    QueuedInvocationIsLost(ExecuteFront(t, OPENED), n + 3, n + 2);
    OneStepFirst(t, TakeNext(OPENED), UNANSWERED);
    OneStepFirst(s, TakeNext(OPENED), [TakeNext(OPENED)] + UNANSWERED);
  }

  lemma OpeningIsSubmitted(s: State, n: Id)
    requires Good(s) && s.core.running && s.core.nextId == n + 1
    requires var t := Submitted(s, OpenThenInvoke(n + 2));
             && BothQueued(t, n) && !t.core.cmds[n].keep && !t.core.cmds[n + 1].keep
    ensures Run(s, TooLateOpening(n))
    ensures Ended(After(s, TooLateOpening(n)).core) && !NobodyIsLost(After(s, TooLateOpening(n)).core)
  {
    hide Good, Run, After, Submitted, NobodyIsLost, BothQueued, OwedCompletion;
    SubmittedIsGood(s, OpenThenInvoke(n + 2));
    BothTaken(Submitted(s, OpenThenInvoke(n + 2)), n);
    SubmissionFirst(s, OpenThenInvoke(n + 2), [TakeNext(OPENED)] + ([TakeNext(OPENED)] + UNANSWERED));
  }

  /** From any idle state without connections, and so from the very start: the run keeps to all that the
      library assumes, and ends with the dispatcher destroyed and an accepted command never completed. */
  lemma OpenedTooLateIsLost(s: State)
    requires Good(s) && Idle(s)
    ensures var steps := TooLate(s.core.nextId);
            Run(s, steps) && Ended(After(s, steps).core) && !NobodyIsLost(After(s, steps).core)
  {
    hide Good, Run, After, Submitted, NobodyIsLost, BothQueued, OwedCompletion;
    BothAreQueued(s);
    var n := s.core.nextId;
    SubmittedIsGood(s, SyncRequest(Shutdown));
    SubmittedRuns(s, SyncRequest(Shutdown));
    OpeningIsSubmitted(Submitted(s, SyncRequest(Shutdown)), n);
    SubmissionFirst(s, SyncRequest(Shutdown), TooLateOpening(n));
  }

  lemma SubmittedRuns(s: State, request: Request)
    requires s.core.running
    ensures Submitted(s, request).core.running && Submitted(s, request).core.nextId == s.core.nextId + 1
  {
  }

  /** The very start is such a state. */
  lemma TheStartCanLose()
    ensures Run(INITIAL, TooLate(0)) && Ended(After(INITIAL, TooLate(0)).core) && !NobodyIsLost(After(INITIAL, TooLate(0)).core)
  {
    InitialIsGood();
    OpenedTooLateIsLost(INITIAL);
  }
}
