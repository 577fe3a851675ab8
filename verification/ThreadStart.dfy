/** Starting and stopping the dispatcher thread: any number of clients that initialise the library, any
    calls of `stop`, and the threads that are created. Each lock, wait, post, read and write is one
    step. */
module ThreadStart {

  datatype CallerAt =
    | Outside
    | Checked           // has found the thread not running, wants to start it
    | Entered           // in `start`, holds the mutex
    | CheckRunning      // has cleared the quit flag
    | AwaitingStart     // has created the thread, waits on the semaphore, still holds the mutex
    | Started           // the semaphore has been taken
    | Leaving(rc: Status)

  datatype Status = Success | Busy | CreateFailed(error: int)

  datatype ThreadAt =
    | Fresh             // created, has not run yet
    | Posted            // has posted the start semaphore
    | MarkingRunning    // holds the mutex
    | Unlocking
    | Looping
    | LoopEnded
    | MarkingStopped    // holds the mutex
    | RenewingSemaphore // holds the mutex, has cleared `running`
    | LastUnlock        // holds the mutex
    | Gone

  datatype Holder = Nobody | Caller(i: nat) | Thread(g: nat)

  /** `threads` are all the threads ever created, in order; `callers` the threads using the object.
      `sem` is the count of the start semaphore, whose maximum is one. `returned` is the last result
      of `start` for each caller; `lost` is raised when a post finds no room or a semaphore in use is
      replaced. */
  datatype State = State(
    mutex: Holder, running: bool, quit: bool, sem: nat,
    callers: seq<CallerAt>, threads: seq<ThreadAt>, lost: bool)

  function Initial(callers: nat): State {
    State(Nobody, false, false, 0, seq(callers, i => Outside), [], false)
  }

  datatype Step =
    | StepCaller(i: nat, createError: int)  // `createError` is what creating a thread gives
    | StepThread(g: nat, more: bool)        // `more` is what `execute` gives
    | Stop

  predicate CallerEnabled(s: State, i: nat) {
    i < |s.callers| &&
    match s.callers[i]
    case Outside => s.mutex.Nobody?
    case Checked => s.mutex.Nobody?
    case AwaitingStart => s.sem > 0
    case _ => true
  }

  predicate ThreadEnabled(s: State, g: nat) {
    g < |s.threads| &&
    match s.threads[g]
    case Posted => s.mutex.Nobody?
    case LoopEnded => s.mutex.Nobody?
    case Gone => false
    case _ => true
  }

  predicate Enabled(s: State, step: Step) {
    match step
    case StepCaller(i, _) => CallerEnabled(s, i)
    case StepThread(g, _) => ThreadEnabled(s, g)
    case Stop => true
  }

  function SetCaller(s: State, i: nat, at: CallerAt): State
    requires i < |s.callers|
  {
    s.(callers := s.callers[i := at])
  }

  function SetThread(s: State, g: nat, at: ThreadAt): State
    requires g < |s.threads|
  {
    s.(threads := s.threads[g := at])
  }

  /** `DBUSIPC_initialize`: unless the thread is running, call `start(true)`. */
  function CallerStep(s: State, i: nat, createError: int): State
    requires CallerEnabled(s, i)
  {
    match s.callers[i]
    case Outside => if s.running then s else SetCaller(s, i, Checked)
    case Checked => SetCaller(s, i, Entered).(mutex := Caller(i))
    case Entered => SetCaller(s, i, CheckRunning).(quit := false)
    case CheckRunning =>
      if s.running then SetCaller(s, i, Leaving(Busy))
      else if createError != 0 then SetCaller(s, i, Leaving(CreateFailed(createError)))
      else SetCaller(s, i, AwaitingStart).(threads := s.threads + [Fresh])
    case AwaitingStart => SetCaller(s, i, Started).(sem := s.sem - 1)
    case Started => SetCaller(s, i, Leaving(Success)).(running := true)
    case Leaving(_) => SetCaller(s, i, Outside).(mutex := Nobody)
  }

  /** `threadFunc`. */
  function ThreadStep(s: State, g: nat, more: bool): State
    requires ThreadEnabled(s, g)
  {
    match s.threads[g]
    case Fresh => SetThread(s, g, Posted).(sem := 1, lost := s.lost || s.sem >= 1)
    case Posted => SetThread(s, g, MarkingRunning).(mutex := Thread(g))
    case MarkingRunning => SetThread(s, g, Unlocking).(running := true)
    case Unlocking => SetThread(s, g, Looping).(mutex := Nobody)
    case Looping => if !s.quit && more then s else SetThread(s, g, LoopEnded)
    case LoopEnded => SetThread(s, g, MarkingStopped).(mutex := Thread(g))
    case MarkingStopped => SetThread(s, g, RenewingSemaphore).(running := false)
    case RenewingSemaphore =>
      SetThread(s, g, LastUnlock).(sem := 0, lost := s.lost || exists i :: 0 <= i < |s.callers| && s.callers[i].AwaitingStart?)
    case LastUnlock => SetThread(s, g, Gone).(mutex := Nobody)
  }

  function Next(s: State, step: Step): State
    requires Enabled(s, step)
  {
    match step
    case StepCaller(i, e) => CallerStep(s, i, e)
    case StepThread(g, more) => ThreadStep(s, g, more)
    case Stop => s.(quit := true)
  }

  ghost predicate Run(s: State, steps: seq<Step>)
    decreases |steps|
  {
    steps == [] || (Enabled(s, steps[0]) && Run(Next(s, steps[0]), steps[1..]))
  }

  ghost function After(s: State, steps: seq<Step>): State
    requires Run(s, steps)
    decreases |steps|
  {
    if steps == [] then s else After(Next(s, steps[0]), steps[1..])
  }

  // ----- the invariant -----

  predicate CallerHolds(c: CallerAt) {
    !c.Outside? && !c.Checked?
  }

  predicate ThreadHolds(t: ThreadAt) {
    t.MarkingRunning? || t.Unlocking? || t.MarkingStopped? || t.RenewingSemaphore? || t.LastUnlock?
  }

  /** The mutex is held by exactly the one that is between its lock and its unlock. */
  ghost predicate MutexOk(s: State) {
    && (forall i :: 0 <= i < |s.callers| ==> (CallerHolds(s.callers[i]) <==> s.mutex == Caller(i)))
    && (forall g :: 0 <= g < |s.threads| ==> (ThreadHolds(s.threads[g]) <==> s.mutex == Thread(g)))
    && (s.mutex.Caller? ==> s.mutex.i < |s.callers|) && (s.mutex.Thread? ==> s.mutex.g < |s.threads|)
  }

  /** What the caller holding the mutex is doing, if a caller holds it. */
  function Starter(s: State): CallerAt {
    if s.mutex.Caller? && s.mutex.i < |s.callers| then s.callers[s.mutex.i] else Outside
  }

  /** Where the newest thread stands, and with it the flag and the semaphore. */
  ghost predicate NewestOk(s: State) {
    var c := Starter(s);
    if s.threads == [] || s.threads[|s.threads| - 1].Gone? then
      !s.running && s.sem == 0 && !c.AwaitingStart? && !c.Started? && c != Leaving(Success)
    else
      match s.threads[|s.threads| - 1]
      case Fresh => !s.running && s.sem == 0 && c.AwaitingStart?
      case Posted =>
        if c.AwaitingStart? then !s.running && s.sem == 1
        else if c.Started? then !s.running && s.sem == 0
        else s.running && s.sem == 0
      case RenewingSemaphore => !s.running && s.sem == 0 && c.Outside?
      case LastUnlock => !s.running && s.sem == 0 && c.Outside?
      case _ => s.running && s.sem == 0 && !c.AwaitingStart? && !c.Started?
  }

  ghost predicate OldGone(s: State) {
    forall g :: 0 <= g < |s.threads| - 1 ==> s.threads[g].Gone?
  }

  ghost predicate Inv(s: State) {
    MutexOk(s) && NewestOk(s) && OldGone(s) && !s.lost
  }

  lemma CallerStepKeepsMutex(s: State, i: nat, createError: int)
    requires MutexOk(s) && CallerEnabled(s, i)
    ensures MutexOk(CallerStep(s, i, createError))
  {
  }

  lemma CallerStepKeeps(s: State, i: nat, createError: int)
    requires Inv(s) && CallerEnabled(s, i)
    ensures Inv(CallerStep(s, i, createError))
  {
    CallerStepKeepsMutex(s, i, createError);
  }

  lemma ThreadStepKeepsMutex(s: State, g: nat, more: bool)
    requires MutexOk(s) && ThreadEnabled(s, g)
    ensures MutexOk(ThreadStep(s, g, more))
  {
    var t := ThreadStep(s, g, more);
    assert t.callers == s.callers && |t.threads| == |s.threads|;
    assert ThreadHolds(s.threads[g]) <==> s.mutex == Thread(g);
    assert ThreadHolds(t.threads[g]) <==> t.mutex == Thread(g);
  }

  lemma ThreadStepKeeps(s: State, g: nat, more: bool)
    requires Inv(s) && ThreadEnabled(s, g)
    ensures Inv(ThreadStep(s, g, more))
  {
    assert g == |s.threads| - 1;
    ThreadStepKeepsMutex(s, g, more);
  }

  lemma NextKeeps(s: State, step: Step)
    requires Inv(s) && Enabled(s, step)
    ensures Inv(Next(s, step))
  {
    match step
    case StepCaller(i, e) => CallerStepKeeps(s, i, e);
    case StepThread(g, more) => ThreadStepKeeps(s, g, more);
    case Stop =>
  }

  lemma {:induction false} RunKeeps(s: State, steps: seq<Step>)
    requires Inv(s) && Run(s, steps)
    ensures Inv(After(s, steps))
    decreases |steps|
  {
    if steps != [] {
      NextKeeps(s, steps[0]);
      hide Next, Enabled, Inv;
      RunKeeps(Next(s, steps[0]), steps[1..]);
    }
  }

  // ----- what follows in every interleaving -----

  /** A caller blocked on the start semaphore while holding the mutex is never deadlocked: either
      its thread, which needs no mutex to post, can move, or the semaphore is up. More generally,
      whoever holds the mutex can move or the one thread it waits for can. */
  lemma NoDeadlock(callers: nat, steps: seq<Step>)
    requires Run(Initial(callers), steps)
    ensures var s := After(Initial(callers), steps);
            match s.mutex
            case Nobody => true
            case Caller(i) =>
              i < |s.callers|
              && (CallerEnabled(s, i) || (s.callers[i].AwaitingStart? && s.threads != [] && ThreadEnabled(s, |s.threads| - 1)))
            case Thread(g) => ThreadEnabled(s, g)
  {
    RunKeeps(Initial(callers), steps);
  }

  /** A successful start has the thread marked as running when it returns; a start that fails
      because the thread is running returns while it still is; and a start that creates a thread
      finds the previous one gone and the semaphore at zero. */
  lemma StartEstablishesRunning(callers: nat, steps: seq<Step>, i: nat)
    requires Run(Initial(callers), steps)
    ensures var s := After(Initial(callers), steps);
            i < |s.callers| ==>
              && (s.callers[i] == Leaving(Success) ==> s.running && s.threads != [] && !s.threads[|s.threads| - 1].Gone?)
              && (s.callers[i].CheckRunning? && !s.running ==>
                    s.sem == 0 && forall g :: 0 <= g < |s.threads| ==> s.threads[g].Gone?)
  {
    RunKeeps(Initial(callers), steps);
  }

  /** `running` is never left true by a thread that has ended, at most one thread is not gone, no
      post is dropped and no semaphore is replaced while somebody waits on it. */
  lemma NeverLeftRunning(callers: nat, steps: seq<Step>)
    requires Run(Initial(callers), steps)
    ensures var s := After(Initial(callers), steps);
            && !s.lost
            && ((forall g :: 0 <= g < |s.threads| ==> s.threads[g].Gone?) ==> !s.running && s.sem == 0)
            && (forall g :: 0 <= g < |s.threads| - 1 ==> s.threads[g].Gone?)
            && (s.running && s.mutex.Nobody? ==> s.threads != [] && !s.threads[|s.threads| - 1].Gone?)
  {
    RunKeeps(Initial(callers), steps);
  }

  /** While the thread loops, `running` holds whenever the mutex is free: it goes down only in the
      thread's own exit section. */
  lemma RunningUntilExit(callers: nat, steps: seq<Step>, g: nat)
    requires Run(Initial(callers), steps)
    ensures var s := After(Initial(callers), steps);
            g < |s.threads| && (s.threads[g].Looping? || s.threads[g].LoopEnded?) ==> s.running
  {
    RunKeeps(Initial(callers), steps);
  }

  // ----- when a request to stop is lost -----

  /** The step that clears the quit flag: a caller that has just entered `start`. */
  predicate Clears(s: State, step: Step)
    requires Enabled(s, step)
  {
    step.StepCaller? && s.callers[step.i].Entered?
  }

  /** Nothing else takes back a request to stop. */
  lemma OnlyEnteringClears(s: State, step: Step)
    requires Enabled(s, step) && s.quit
    ensures !Next(s, step).quit <==> Clears(s, step)
  {
  }

  ghost predicate QuitThroughout(s: State, steps: seq<Step>)
    requires Run(s, steps)
    decreases |steps|
  {
    s.quit && (steps == [] || QuitThroughout(Next(s, steps[0]), steps[1..]))
  }

  ghost predicate NobodyEnters(s: State, steps: seq<Step>)
    requires Run(s, steps)
    decreases |steps|
  {
    steps == [] || (!Clears(s, steps[0]) && NobodyEnters(Next(s, steps[0]), steps[1..]))
  }

  /** A request to stop survives exactly the runs in which nobody enters `start`. */
  lemma {:induction false} StopSurvivesIffNobodyEnters(s: State, steps: seq<Step>)
    requires s.quit && Run(s, steps)
    ensures QuitThroughout(s, steps) <==> NobodyEnters(s, steps)
    decreases |steps|
  {
    hide Next, Enabled, Clears;
    if steps != [] {
      OnlyEnteringClears(s, steps[0]);
      if Next(s, steps[0]).quit {
        StopSurvivesIffNobodyEnters(Next(s, steps[0]), steps[1..]);
      }
    }
  }

  // ----- the thread obeys -----

  /** The loop is left if and only if the thread has been told to quit or has nothing more to execute, and
      nobody else takes the thread out of it. */
  lemma LoopLeftIff(s: State, step: Step, g: nat)
    requires Enabled(s, step) && g < |s.threads| && s.threads[g].Looping?
    ensures var t := Next(s, step);
            && g < |t.threads|
            && (t.threads[g] != Looping <==> step.StepThread? && step.g == g && (s.quit || !step.more))
            && (t.threads[g] != Looping ==> t.threads[g] == LoopEnded)
  {
    match step
    case StepCaller(i, e) => CallerLeavesThreads(s, i, e, g);
    case StepThread(h, more) => OneThreadMoves(s, h, more, g);
    case Stop =>
  }

  lemma CallerLeavesThreads(s: State, i: nat, e: int, g: nat)
    requires CallerEnabled(s, i) && g < |s.threads|
    ensures var t := CallerStep(s, i, e); g < |t.threads| && t.threads[g] == s.threads[g]
  {
  }

  lemma OneThreadMoves(s: State, h: nat, more: bool, g: nat)
    requires ThreadEnabled(s, h) && g < |s.threads| && s.threads[g].Looping?
    ensures var t := ThreadStep(s, h, more);
            g < |t.threads| && t.threads[g] == if h == g && (s.quit || !more) then LoopEnded else Looping
  {
  }

  /** How many steps of its own a thread that is told to quit has left. */
  function StepsLeft(at: ThreadAt): (n: nat)
    ensures n == 0 <==> at.Gone?
  {
    match at
    case Fresh => 9
    case Posted => 8
    case MarkingRunning => 7
    case Unlocking => 6
    case Looping => 5
    case LoopEnded => 4
    case MarkingStopped => 3
    case RenewingSemaphore => 2
    case LastUnlock => 1
    case Gone => 0
  }

  /** The newest thread has been told to quit, and nobody is about to create another. */
  ghost predicate Winding(s: State) {
    && Inv(s) && s.quit && s.threads != []
    && (s.threads[|s.threads| - 1].Gone? ==> !Starter(s).CheckRunning?)
  }

  function OwnSteps(steps: seq<Step>, g: nat): nat
    decreases |steps|
  {
    if steps == [] then 0
    else (if steps[0].StepThread? && steps[0].g == g then 1 else 0) + OwnSteps(steps[1..], g)
  }

  lemma WindingCaller(s: State, i: nat, e: int)
    requires Winding(s) && CallerEnabled(s, i) && !s.callers[i].Entered?
    ensures var t := CallerStep(s, i, e); Winding(t) && t.threads == s.threads
  {
    assert CallerHolds(s.callers[i]) <==> s.mutex == Caller(i);
    NextKeeps(s, StepCaller(i, e));
  }

  lemma WindingThread(s: State, g: nat, more: bool)
    requires Winding(s) && ThreadEnabled(s, g)
    ensures var t := ThreadStep(s, g, more);
            && Winding(t) && g == |s.threads| - 1 && |t.threads| == |s.threads|
            && StepsLeft(t.threads[g]) == StepsLeft(s.threads[g]) - 1
  {
    NextKeeps(s, StepThread(g, more));
  }

  lemma WindingStep(s: State, step: Step)
    requires Winding(s) && Enabled(s, step) && !Clears(s, step)
    ensures var t, g := Next(s, step), |s.threads| - 1;
            && Winding(t) && |t.threads| == |s.threads|
            && StepsLeft(t.threads[g]) == StepsLeft(s.threads[g]) - if step.StepThread? && step.g == g then 1 else 0
  {
    hide Winding;
    match step
    case StepCaller(i, e) => WindingCaller(s, i, e);
    case StepThread(g, more) => WindingThread(s, g, more);
    case Stop => StopWinds(s);
  }

  lemma StopWinds(s: State)
    requires Winding(s)
    ensures Winding(s.(quit := true)) && s.threads != []
  {
  }

  lemma {:induction false} WindingRun(s: State, steps: seq<Step>)
    requires Winding(s) && Run(s, steps) && NobodyEnters(s, steps)
    ensures var t, g := After(s, steps), |s.threads| - 1;
            && Winding(t) && |t.threads| == |s.threads| > 0
            && StepsLeft(t.threads[g]) == StepsLeft(s.threads[g]) - OwnSteps(steps, g)
    decreases |steps|
  {
    if steps == [] {
      StopWinds(s);
    } else {
      WindingStep(s, steps[0]);
      hide Next, Enabled, Winding, Clears, StepsLeft;
      WindingRun(Next(s, steps[0]), steps[1..]);
    }
  }

  /** A thread that is told to stop and that nobody restarts ends, whatever `execute` gives: with each of
      its own steps it is one nearer to its end, from its loop it takes five, and then `running` is down.
      Until then it can move, or the caller that holds the mutex can. */
  lemma StopIsObeyed(callers: nat, before: seq<Step>, steps: seq<Step>, g: nat)
    requires Run(Initial(callers), before)
    requires var s := After(Initial(callers), before);
             && s.quit && g < |s.threads| && !s.threads[g].Gone?
             && Run(s, steps) && NobodyEnters(s, steps)
    ensures var s := After(Initial(callers), before);
            var t := After(s, steps);
            && (s.threads[g].Looping? ==> StepsLeft(s.threads[g]) == 5)
            && OwnSteps(steps, g) <= StepsLeft(s.threads[g])
            && g < |t.threads| && StepsLeft(t.threads[g]) == StepsLeft(s.threads[g]) - OwnSteps(steps, g)
            && (OwnSteps(steps, g) == StepsLeft(s.threads[g]) ==>
                  !t.running && forall h :: 0 <= h < |t.threads| ==> t.threads[h].Gone?)
            && (OwnSteps(steps, g) < StepsLeft(s.threads[g]) ==>
                  ThreadEnabled(t, g) || (t.mutex.Caller? && CallerEnabled(t, t.mutex.i)))
  {
    RunKeeps(Initial(callers), before);
    var s := After(Initial(callers), before);
    assert g == |s.threads| - 1;
    WindingRun(s, steps);
    WindingEnds(After(s, steps));
  }

  lemma WindingEnds(t: State)
    requires Winding(t)
    ensures var g := |t.threads| - 1;
            if t.threads[g].Gone? then !t.running && forall h :: 0 <= h < |t.threads| ==> t.threads[h].Gone?
            else ThreadEnabled(t, g) || (t.mutex.Caller? && CallerEnabled(t, t.mutex.i))
  {
  }

  // ----- what `start` answers -----

  ghost predicate AnswerOk(s: State) {
    match Starter(s)
    case Leaving(Success) => s.running
    case Leaving(Busy) => s.running
    case Leaving(CreateFailed(e)) => !s.running && e != 0
    case _ => true
  }

  lemma AnswerKeeps(s: State, step: Step)
    requires Inv(s) && AnswerOk(s) && Enabled(s, step)
    ensures AnswerOk(Next(s, step))
  {
    match step
    case StepCaller(i, e) => assert CallerHolds(s.callers[i]) <==> s.mutex == Caller(i);
    case StepThread(g, more) => assert g == |s.threads| - 1;
    case Stop =>
  }

  lemma {:induction false} AnswerRun(s: State, steps: seq<Step>)
    requires Inv(s) && AnswerOk(s) && Run(s, steps)
    ensures Inv(After(s, steps)) && AnswerOk(After(s, steps))
    decreases |steps|
  {
    if steps != [] {
      AnswerKeeps(s, steps[0]);
      NextKeeps(s, steps[0]);
      hide Next, Enabled, Inv, AnswerOk;
      AnswerRun(Next(s, steps[0]), steps[1..]);
    }
  }

  /** Caller `i` does not leave `start`. */
  ghost predicate StaysIn(s: State, steps: seq<Step>, i: nat)
    requires Run(s, steps)
    decreases |steps|
  {
    i < |s.callers| && CallerHolds(s.callers[i]) && (steps == [] || StaysIn(Next(s, steps[0]), steps[1..], i))
  }

  /** Caller `i` is in `start` and there were `n` threads when it entered. */
  ghost predicate SinceEntry(s: State, i: nat, n: nat) {
    && i < |s.callers|
    && match s.callers[i]
       case Outside => false
       case Checked => false
       case AwaitingStart => |s.threads| == n + 1
       case Started => |s.threads| == n + 1
       case Leaving(rc) => |s.threads| == n + if rc.Success? then 1 else 0
       case _ => |s.threads| == n
  }

  lemma SinceEntryKeeps(s: State, step: Step, i: nat, n: nat)
    requires Inv(s) && SinceEntry(s, i, n) && Enabled(s, step)
    requires var t := Next(s, step); i < |t.callers| && CallerHolds(t.callers[i])
    ensures SinceEntry(Next(s, step), i, n)
  {
    assert s.mutex == Caller(i);
    match step
    case StepCaller(j, e) => assert CallerHolds(s.callers[j]) <==> s.mutex == Caller(j);
    case StepThread(g, more) =>
    case Stop =>
  }

  lemma {:induction false} SinceEntryRun(s: State, steps: seq<Step>, i: nat, n: nat)
    requires Inv(s) && SinceEntry(s, i, n) && Run(s, steps) && StaysIn(s, steps, i)
    ensures SinceEntry(After(s, steps), i, n)
    decreases |steps|
  {
    if steps != [] {
      NextKeeps(s, steps[0]);
      StayingHolds(Next(s, steps[0]), steps[1..], i);
      SinceEntryKeeps(s, steps[0], i, n);
      hide Next, Enabled, Inv, SinceEntry;
      SinceEntryRun(Next(s, steps[0]), steps[1..], i, n);
    }
  }

  lemma StayingHolds(s: State, steps: seq<Step>, i: nat)
    requires Run(s, steps) && StaysIn(s, steps, i)
    ensures i < |s.callers| && CallerHolds(s.callers[i])
  {
  }

  /** From entering `start` to its return: success is answered if and only if this call has created the
      one new thread, which then runs; busy if and only if it has created none and a thread runs; and
      otherwise nothing runs, and the answer is the error of creating a thread. */
  lemma StartAnswersTruly(callers: nat, before: seq<Step>, steps: seq<Step>, i: nat)
    requires Run(Initial(callers), before)
    requires var s := After(Initial(callers), before);
             && i < |s.callers| && s.callers[i].Entered? && Run(s, steps) && StaysIn(s, steps, i)
             && i < |After(s, steps).callers| && After(s, steps).callers[i].Leaving?
    ensures var s := After(Initial(callers), before);
            var t := After(s, steps);
            var rc := t.callers[i].rc;
            && (rc.Success? <==> |t.threads| == |s.threads| + 1)
            && (rc.Busy? <==> |t.threads| == |s.threads| && t.running)
            && (rc.CreateFailed? <==> |t.threads| == |s.threads| && !t.running)
            && (rc.Success? ==> t.running) && (rc.CreateFailed? ==> rc.error != 0)
  {
    AnswerRun(Initial(callers), before);
    var s := After(Initial(callers), before);
    AnswerRun(s, steps);
    SinceEntryRun(s, steps, i, |s.threads|);
    assert After(s, steps).mutex == Caller(i);
  }

  /** A run in which a request to stop that was made while the thread runs is taken back. */
  ghost predicate LosesStop(callers: nat, steps: seq<Step>, step: Step) {
    && Run(Initial(callers), steps)
    && var s := After(Initial(callers), steps);
    && Enabled(s, step) && s.running && s.quit && !Next(s, step).quit
  }

  /** With one caller, whoever has found the thread not running still finds it so. */
  ghost predicate SoleCallerOk(s: State) {
    && |s.callers| <= 1
    && forall i :: 0 <= i < |s.callers| && (s.callers[i].Checked? || s.callers[i].Entered? || s.callers[i].CheckRunning?) ==>
         !s.running
  }

  lemma SoleCallerKeeps(s: State, step: Step)
    requires Inv(s) && SoleCallerOk(s) && Enabled(s, step)
    ensures SoleCallerOk(Next(s, step))
  {
    match step
    case StepCaller(i, e) => SoleCallerStep(s, i, e);
    case StepThread(g, more) => SoleThreadStep(s, g, more);
    case Stop =>
  }

  lemma SoleCallerStep(s: State, i: nat, e: int)
    requires Inv(s) && SoleCallerOk(s) && CallerEnabled(s, i)
    ensures SoleCallerOk(CallerStep(s, i, e))
  {
  }

  lemma SoleThreadStep(s: State, g: nat, more: bool)
    requires Inv(s) && SoleCallerOk(s) && ThreadEnabled(s, g)
    ensures SoleCallerOk(ThreadStep(s, g, more))
  {
    assert g == |s.threads| - 1;
  }

  lemma {:induction false} SoleCallerRun(s: State, steps: seq<Step>)
    requires Inv(s) && SoleCallerOk(s) && Run(s, steps)
    ensures SoleCallerOk(After(s, steps))
    decreases |steps|
  {
    if steps != [] {
      SoleCallerKeeps(s, steps[0]);
      NextKeeps(s, steps[0]);
      hide Next, Enabled, Inv, SoleCallerOk;
      SoleCallerRun(Next(s, steps[0]), steps[1..]);
    }
  }

  // ----- two clients that initialise the library at the same time -----

  function Both(n: nat, first: CallerAt, second: CallerAt): seq<CallerAt> {
    seq(n, i => if i == 0 then first else if i == 1 then second else Outside)
  }

  lemma BothSteps(n: nat, first: CallerAt, second: CallerAt, at: CallerAt)
    requires n >= 2
    ensures Both(n, first, second)[0 := at] == Both(n, at, second)
    ensures Both(n, first, second)[1 := at] == Both(n, first, at)
  {
  }

  function At(n: nat, mutex: Holder, running: bool, quit: bool, sem: nat,
              first: CallerAt, second: CallerAt, threads: seq<ThreadAt>): State
  {
    State(mutex, running, quit, sem, Both(n, first, second), threads, false)
  }

  lemma OneStepFirst(s: State, step: Step, rest: seq<Step>)
    requires Enabled(s, step) && Run(Next(s, step), rest)
    ensures Run(s, [step] + rest) && After(s, [step] + rest) == After(Next(s, step), rest)
  {
    hide Next, Enabled;
    assert ([step] + rest)[1..] == rest;
  }

  /** One step of the run, where the states before and after it are known. */
  lemma Then(s: State, step: Step, t: State, rest: seq<Step>, end: State)
    requires Enabled(s, step) && Next(s, step) == t && Run(t, rest) && After(t, rest) == end
    ensures Run(s, [step] + rest) && After(s, [step] + rest) == end
  {
    hide Next, Enabled;
    OneStepFirst(s, step, rest);
  }

  const SECOND := StepCaller(1, 0)
  const FIRST := StepCaller(0, 0)
  const THREAD := StepThread(0, true)

  /** The thread gets to its loop, it is told to stop, and the second client enters `start`. */
  const STOPPING := [THREAD] + ([THREAD] + ([THREAD] + ([Stop] + ([SECOND] + []))))
  /** The second client finds the thread not running; then the first starts it. */
  const STARTING :=
    [SECOND] + ([FIRST] + ([FIRST] + ([FIRST] + ([FIRST] + ([THREAD] + ([FIRST] + ([FIRST] + ([FIRST] + STOPPING))))))))

  lemma StoppingRuns(n: nat)
    requires n >= 2
    ensures var s := At(n, Nobody, true, false, 0, Outside, Checked, [Posted]);
            var t := At(n, Caller(1), true, true, 0, Outside, Entered, [Looping]);
            Run(s, STOPPING) && After(s, STOPPING) == t
  {
    var t := At(n, Caller(1), true, true, 0, Outside, Entered, [Looping]);
    var s0 := At(n, Nobody, true, false, 0, Outside, Checked, [Posted]);
    var s1 := At(n, Thread(0), true, false, 0, Outside, Checked, [MarkingRunning]);
    var s2 := At(n, Thread(0), true, false, 0, Outside, Checked, [Unlocking]);
    var s3 := At(n, Nobody, true, false, 0, Outside, Checked, [Looping]);
    var s4 := At(n, Nobody, true, true, 0, Outside, Checked, [Looping]);
    BothSteps(n, Outside, Checked, Entered);
    hide Run, After, Both;
    Then(s4, SECOND, t, [], t);
    Then(s3, Stop, s4, [SECOND] + [], t);
    Then(s2, THREAD, s3, [Stop] + ([SECOND] + []), t);
    Then(s1, THREAD, s2, [THREAD] + ([Stop] + ([SECOND] + [])), t);
    Then(s0, THREAD, s1, [THREAD] + ([THREAD] + ([Stop] + ([SECOND] + []))), t);
  }

  lemma StartingRuns(n: nat)
    requires n >= 2
    ensures var t := At(n, Caller(1), true, true, 0, Outside, Entered, [Looping]);
            Run(Initial(n), STARTING) && After(Initial(n), STARTING) == t
  {
    var t := At(n, Caller(1), true, true, 0, Outside, Entered, [Looping]);
    StoppingRuns(n);
    StarterReturns(n, t);
    assert Initial(n) == At(n, Nobody, false, false, 0, Outside, Outside, []);
    var s0 := At(n, Nobody, false, false, 0, Outside, Outside, []);
    var s1 := At(n, Nobody, false, false, 0, Outside, Checked, []);
    var s2 := At(n, Nobody, false, false, 0, Checked, Checked, []);
    var s3 := At(n, Caller(0), false, false, 0, Entered, Checked, []);
    BothSteps(n, Outside, Outside, Checked);
    BothSteps(n, Outside, Checked, Checked);
    BothSteps(n, Checked, Checked, Entered);
    hide Run, After, Both;
    var rest := [FIRST] + ([FIRST] + ([THREAD] + ([FIRST] + ([FIRST] + ([FIRST] + STOPPING)))));
    Then(s2, FIRST, s3, rest, t);
    Then(s1, FIRST, s2, [FIRST] + rest, t);
    Then(s0, SECOND, s1, [FIRST] + ([FIRST] + rest), t);
  }

  /** From entering `start` to its return. */
  lemma StarterReturns(n: nat, t: State)
    requires n >= 2
    requires var s := At(n, Nobody, true, false, 0, Outside, Checked, [Posted]); Run(s, STOPPING) && After(s, STOPPING) == t
    ensures var s := At(n, Caller(0), false, false, 0, Entered, Checked, []);
            var steps := [FIRST] + ([FIRST] + ([THREAD] + ([FIRST] + ([FIRST] + ([FIRST] + STOPPING)))));
            Run(s, steps) && After(s, steps) == t
  {
    var s3 := At(n, Caller(0), false, false, 0, Entered, Checked, []);
    var s4 := At(n, Caller(0), false, false, 0, CheckRunning, Checked, []);
    var s5 := At(n, Caller(0), false, false, 0, AwaitingStart, Checked, [Fresh]);
    var s6 := At(n, Caller(0), false, false, 1, AwaitingStart, Checked, [Posted]);
    var s7 := At(n, Caller(0), false, false, 0, Started, Checked, [Posted]);
    var s8 := At(n, Caller(0), true, false, 0, Leaving(Success), Checked, [Posted]);
    var s9 := At(n, Nobody, true, false, 0, Outside, Checked, [Posted]);
    BothSteps(n, Entered, Checked, CheckRunning);
    BothSteps(n, CheckRunning, Checked, AwaitingStart);
    BothSteps(n, AwaitingStart, Checked, Started);
    BothSteps(n, Started, Checked, Leaving(Success));
    BothSteps(n, Leaving(Success), Checked, Outside);
    hide Run, After, Both;
    Then(s8, FIRST, s9, STOPPING, t);
    Then(s7, FIRST, s8, [FIRST] + STOPPING, t);
    Then(s6, FIRST, s7, [FIRST] + ([FIRST] + STOPPING), t);
    Then(s5, THREAD, s6, [FIRST] + ([FIRST] + ([FIRST] + STOPPING)), t);
    Then(s4, FIRST, s5, [THREAD] + ([FIRST] + ([FIRST] + ([FIRST] + STOPPING))), t);
    Then(s3, FIRST, s4, [FIRST] + ([THREAD] + ([FIRST] + ([FIRST] + ([FIRST] + STOPPING)))), t);
  }

  /** A request to stop the running thread can be lost if and only if two clients may be initialising the
      library at the same time: one of them finds the thread not running, and by the time it enters
      `start` the other has started it and it has been told to stop. */
  lemma StopIsLostIffConcurrentStart(callers: nat)
    ensures (exists steps, step :: LosesStop(callers, steps, step)) <==> callers >= 2
  {
    if callers >= 2 {
      StartingRuns(callers);
      assert LosesStop(callers, STARTING, SECOND);
    } else if steps, step :| LosesStop(callers, steps, step) {
      RunKeeps(Initial(callers), steps);
      SoleCallerRun(Initial(callers), steps);
      OnlyEnteringClears(After(Initial(callers), steps), step);
    }
  }
}
