/** The client thread in `DBUSIPC_shutdown`: it submits the shutdown command, waits on its semaphore if
    the command was accepted, and then waits for the dispatcher thread to end in any case. */
module ShutdownCaller {
  import opened Commands
  import opened Wrappers
  import opened Connections
  import opened Invariant
  import opened Execution
  import opened Progress
  import opened Runs
  import opened Guarantees
  import opened Shutdowns
  import opened Preconditions

  datatype CallerAt = OnSemaphore | OnThread | Passed

  /** How far the caller gets as long as the state stays as it is. Completing the command posts the
      semaphore; the thread can be joined once it has ended. */
  function Furthest(at: CallerAt, s: State, c: Id): CallerAt {
    var here := if at.OnSemaphore? && History(s.core, c) != [] then OnThread else at;
    if here.OnThread? && !s.core.running then Passed else here
  }

  /** Where the caller stands after the others have taken these steps, having gone on whenever it could. */
  ghost function CallerAfter(at: CallerAt, s: State, c: Id, steps: seq<Step>): CallerAt
    requires Run(s, steps)
    decreases |steps|
  {
    if steps == [] then Furthest(at, s, c) else CallerAfter(Furthest(at, s, c), Next(s, steps[0]), c, steps[1..])
  }

  /** The semaphore is waited for only if the submission was accepted. */
  function AfterSubmission(wrote: bool): CallerAt {
    if wrote then OnSemaphore else OnThread
  }

  /** The step executes somebody else's shutdown command. */
  predicate OtherShutdown(s: State, step: Step, c: Id)
    requires Enabled(s, step)
  {
    step.TakeNext? && s.core.queue[0] != c && s.core.queue[0] in s.core.cmds && KindOf(s.core, s.core.queue[0]).Shutdown?
  }

  ghost predicate NoOtherShutdown(s: State, c: Id, steps: seq<Step>)
    requires Run(s, steps)
    decreases |steps|
  {
    steps == [] || (!OtherShutdown(s, steps[0], c) && NoOtherShutdown(Next(s, steps[0]), c, steps[1..]))
  }

  /** Some run without anybody else's shutdown lets the caller through. */
  ghost predicate CanPass(at: CallerAt, s: State, c: Id) {
    exists steps :: Run(s, steps) && NoOtherShutdown(s, c, steps) && CallerAfter(at, s, c, steps) == Passed
  }

  // ----- a refused command -----

  /** The dispatcher runs, has not been told to quit, and the caller's command is gone. */
  ghost predicate NobodyTold(s: State, c: Id) {
    s.core.running && !s.core.quit && c in s.core.cmds && c < s.core.nextId && c !in s.core.live
  }

  lemma StillNobodyTold(s: State, c: Id, step: Step)
    requires Good(s) && NobodyTold(s, c) && Enabled(s, step) && !OtherShutdown(s, step, c)
    ensures NobodyTold(Next(s, step), c)
  {
    TakenIds(s);
    GoodIds(s);
    NextAdvances(s, step);
    NextKeepsRunningOrQuit(s, step);
    hide Good, ExecuteFront, Notify, Submit, DrainCancelled;
    assert CmdProgress(s.core, Next(s, step).core, c);
    if step.TakeNext? {
      ExecuteFrontQuits(s, step.answer);
    } else {
      NextQuits(s, step);
    }
  }

  lemma {:induction false} JoinNeverPasses(s: State, c: Id, steps: seq<Step>)
    requires Good(s) && NobodyTold(s, c) && Run(s, steps) && NoOtherShutdown(s, c, steps)
    ensures CallerAfter(OnThread, s, c, steps) == OnThread && After(s, steps).core.running
    decreases |steps|
  {
    assert Furthest(OnThread, s, c) == OnThread;
    hide Good, Enabled, Allowed, Next, OtherShutdown;
    if steps != [] {
      NextKeeps(s, steps[0]);
      StillNobodyTold(s, c, steps[0]);
      JoinNeverPasses(Next(s, steps[0]), c, steps[1..]);
    }
  }

  // ----- an accepted command -----

  /** The state in which the shutdown command completes. */
  function Released(p: State): State
    requires CountsPositive(p)
  {
    var t := ForceReleaseAll(p);
    t.(core := t.core.(quit := true))
  }

  lemma ReleasedIsLive(p: State, c: Id, hand: set<Id>)
    requires Inv(p, hand) && c in hand && CountsPositive(p)
    ensures IsLive(Released(p).core, c) && c < Released(p).core.nextId
  {
    hide Inv, ForceReleaseAll, Spares;
    ForceReleaseAllKeeps(p, hand);
    QuitKeeps(ForceReleaseAll(p), hand);
    HandIsNotParked(Released(p), c, hand);
    HandIds(Released(p), c, hand);
  }

  lemma ShutdownCompletes(p: State, c: Id, answer: Answer, hand: set<Id>)
    requires Inv(p, hand) && c in hand && c in p.core.cmds && KindOf(p.core, c).Shutdown? && CountsPositive(p)
    ensures History(Execute(p, c, answer).core, c) != []
  {
    hide Inv, Complete, ForceReleaseAll, CountsPositive;
    ReleasedIsLive(p, c, hand);
    CompletionIsRecorded(Released(p).core, c, Outcome(Ok, None));
  }

  lemma HandIds(u: State, c: Id, hand: set<Id>)
    requires Inv(u, hand) && c in hand
    ensures c < u.core.nextId
  {
    HandIsKnown(u, hand);
  }

  /** The dispatcher executes the command, and then its thread ends. */
  function ShutdownRun(answer: Answer): seq<Step> {
    [TakeNext(answer)] + ([ThreadExit] + [])
  }

  lemma CallerFirst(at: CallerAt, s: State, c: Id, step: Step, rest: seq<Step>)
    requires Enabled(s, step) && Allowed(s, step) && Run(Next(s, step), rest)
    requires !OtherShutdown(s, step, c) && NoOtherShutdown(Next(s, step), c, rest)
    ensures Run(s, [step] + rest) && NoOtherShutdown(s, c, [step] + rest)
    ensures CallerAfter(at, s, c, [step] + rest) == CallerAfter(Furthest(at, s, c), Next(s, step), c, rest)
  {
    hide Enabled, Allowed, Next, OtherShutdown, Furthest;
    assert ([step] + rest)[1..] == rest;
  }

  lemma ThreadEnds(s: State, c: Id)
    requires s.core.running && s.core.quit
    ensures Run(s, [ThreadExit] + []) && NoOtherShutdown(s, c, [ThreadExit] + [])
    ensures CallerAfter(OnThread, s, c, [ThreadExit] + []) == Passed
    ensures History(s.core, c) != [] ==> CallerAfter(OnSemaphore, s, c, [ThreadExit] + []) == Passed
  {
    CallerFirst(OnSemaphore, s, c, ThreadExit, []);
    CallerFirst(OnThread, s, c, ThreadExit, []);
  }

  /** An accepted shutdown command at the front of the queue: the caller gets through. */
  lemma AcceptedPasses(s: State, c: Id, answer: Answer)
    requires Good(s) && s.core.running && s.core.queue == [c] && c in s.core.cmds && KindOf(s.core, c).Shutdown?
    ensures CanPass(OnSemaphore, s, c)
  {
    GoodCounts(s);
    TakenIds(s);
    PoppedReady(s);
    ExecuteFrontQuits(s, answer);
    hide Inv, Good, Execute, CanPass;
    ShutdownCompletes(TakenOff(s), c, answer, {c});
    FrontFlags(s, answer);
    TakeNextKeepsRunning(s, answer);
    ShutdownIsAllowed(s, answer);
    hide ExecuteFront;
    ThreadEnds(ExecuteFront(s, answer), c);
    NotYetCompleted(s, c);
    CallerFirst(OnSemaphore, s, c, TakeNext(answer), [ThreadExit] + []);
    PassesBy(OnSemaphore, s, c, ShutdownRun(answer));
  }

  lemma NotYetCompleted(s: State, c: Id)
    requires Good(s) && c in s.core.cmds && c in s.core.live
    ensures Furthest(OnSemaphore, s, c) == OnSemaphore
  {
    GoodCmd(s, c);
  }

  lemma PassesBy(at: CallerAt, s: State, c: Id, steps: seq<Step>)
    requires Run(s, steps) && NoOtherShutdown(s, c, steps) && CallerAfter(at, s, c, steps) == Passed
    ensures CanPass(at, s, c)
  {
  }

  lemma ShutdownIsAllowed(s: State, answer: Answer)
    requires s.core.running && s.core.queue != [] && s.core.pipe > 0
    requires s.core.queue[0] in s.core.cmds && KindOf(s.core, s.core.queue[0]).Shutdown?
    ensures Allowed(s, TakeNext(answer))
  {
  }

  // ----- the call returns if and only if its command was accepted -----

  lemma SubmissionOutcome(s: State, c: Id, wrote: bool)
    requires Good(s) && s.core.running && s.core.queue == [] && c in s.core.held
    ensures var t := Next(s, HandIn(c, wrote));
            && Good(t)
            && c in s.core.cmds && c in t.core.cmds && t.core.cmds[c].request == s.core.cmds[c].request
            && t.core.running && t.core.quit == s.core.quit
            && (wrote ==> t.core.queue == [c])
            && (!wrote && !s.core.quit ==> NobodyTold(t, c))
  {
    GoodCmd(s, c);
    SubmissionKeeps(s, c, wrote);
    GoodIds(s);
    hide Good;
  }

  /** A client calls shutdown while the dispatcher is idle. Whether it ever gets past waiting for the
      dispatcher thread, without somebody else shutting down later, is decided by whether the byte for
      its command could be written: some run lets the caller through if and only if the submission was
      accepted, or the loop had been told to quit before. */
  lemma ShutdownReturnsIffAccepted(s: State, c: Id, wrote: bool)
    requires Good(s) && s.core.running && s.core.queue == []
    requires c in s.core.held && c in s.core.cmds && KindOf(s.core, c).Shutdown?
    ensures CanPass(AfterSubmission(wrote), Next(s, HandIn(c, wrote)), c) <==> wrote || s.core.quit
  {
    var t := Next(s, HandIn(c, wrote));
    SubmissionOutcome(s, c, wrote);
    hide Good, NobodyTold, Next;
    if wrote {
      AcceptedPasses(t, c, OPENED);
    } else if s.core.quit {
      ThreadEnds(t, c);
      PassesBy(OnThread, t, c, [ThreadExit] + []);
    } else if CanPass(OnThread, t, c) {
      var steps :| Run(t, steps) && NoOtherShutdown(t, c, steps) && CallerAfter(OnThread, t, c, steps) == Passed;
      JoinNeverPasses(t, c, steps);
    }
  }

  /** The failing input, from the very start: build a shutdown command, and the byte for it cannot be
      written. */
  lemma RefusedShutdownHangs()
    ensures var steps := [Construct(SyncRequest(Shutdown))] + ([HandIn(0, false)] + []);
            Run(INITIAL, steps) && !CanPass(AfterSubmission(false), After(INITIAL, steps), 0)
  {
    InitialIsGood();
    hide Good;
    var built := INITIAL.(core := Build(INITIAL.core, SyncRequest(Shutdown)));
    NextKeeps(INITIAL, Construct(SyncRequest(Shutdown)));
    ShutdownReturnsIffAccepted(built, 0, false);
    OneStepFirst(built, HandIn(0, false), []);
    OneStepFirst(INITIAL, Construct(SyncRequest(Shutdown)), [HandIn(0, false)] + []);
  }
}
