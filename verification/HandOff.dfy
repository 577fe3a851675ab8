/** A synchronous call as two threads see it: the client submits a command that carries pointers
    to its own stack and sleeps on a semaphore there; the dispatcher thread writes the results
    through those pointers and posts. Every lock, wait, post, read and write is one step. */
module HandOff {
  import opened Commands
  import opened Wrappers

  datatype ClientAt =
    | Submitting | Locking
    | Checking          // holds the mutex, looks at the count
    | Asleep            // in the condition variable's queue, mutex released
    | Woken             // wants the mutex back
    | Unlocking         // has taken the semaphore, still holds the mutex
    | Reading | Returned

  datatype DispatcherAt =
    | NotMine           // the command has not been handed over
    | Holding           // it is queued, being executed, or waiting for its reply
    | Completing        // its outcome is there, and is about to be delivered
    | WroteResult | WroteStatus
    | Posting           // holds the mutex
    | Signalling        // has raised the count, still holds the mutex
    | Releasing         // has signalled, still holds the mutex
    | Done

  datatype Holder = Nobody | ByClient | ByDispatcher

  /** What the call gives back. */
  datatype GivenBack = NotYet | Refused | Result(outcome: Outcome)

  /** `status` and `result` are the client's variables, `n` and `max` its semaphore. `fault` is raised
      when the dispatcher uses anything of the client's after the call has returned, `dropped` when a
      post finds no room. */
  datatype Exchange = Exchange(
    client: ClientAt, dispatcher: DispatcherAt, mutex: Holder, n: nat, max: nat,
    status: Code, result: Option<Id>, returned: GivenBack, outcome: Outcome,
    accepted: nat, taken: nat, dropped: bool, fault: bool)

  /** The client has built its semaphore and its command; `outcome` is what the dispatcher will
      deliver, whenever and by whatever path it completes the command. */
  function Begin(outcome: Outcome): Exchange {
    Exchange(Submitting, NotMine, Nobody, 0, 1, Ok, None, NotYet, outcome, 0, 0, false, false)
  }

  datatype Step =
    | Submit(accepted: bool)
    | Deliver           // the command meets its completion, by whatever path
    | Client            // the client's next step
    | Spurious          // the client wakes for no reason
    | Dispatcher        // the dispatcher's next step

  predicate Enabled(x: Exchange, step: Step) {
    match step
    case Submit(_) => x.client.Submitting?
    case Client =>
      (match x.client
       case Submitting => false
       case Locking => x.mutex.Nobody?
       case Asleep => false
       case Woken => x.mutex.Nobody?
       case Returned => false
       case _ => true)
    case Deliver => x.dispatcher.Holding?
    case Spurious => x.client.Asleep?
    case Dispatcher =>
      (match x.dispatcher
       case NotMine => false
       case Holding => false
       case WroteStatus => x.mutex.Nobody?
       case Done => false
       case _ => true)
  }

  /** The dispatcher uses the client's stack. */
  function Touch(x: Exchange): Exchange {
    if x.client.Returned? then x.(fault := true) else x
  }

  function ClientStep(x: Exchange): Exchange
    requires Enabled(x, Client)
  {
    match x.client
    case Locking => x.(client := Checking, mutex := ByClient)
    case Checking =>
      if x.n < 1 then x.(client := Asleep, mutex := Nobody)
      else x.(client := Unlocking, n := x.n - 1, taken := x.taken + 1)
    case Woken => x.(client := Checking, mutex := ByClient)
    case Unlocking => x.(client := Reading, mutex := Nobody)
    case Reading => x.(client := Returned, returned := Result(Outcome(x.status, x.result)))
  }

  /** The order of these operations is important: results first, then the status, then the post. */
  function DispatcherStep(x: Exchange): Exchange
    requires Enabled(x, Dispatcher)
  {
    match x.dispatcher
    case Completing => x.(dispatcher := WroteResult, result := x.outcome.handle)
    case WroteResult => x.(dispatcher := WroteStatus, status := x.outcome.code)
    case WroteStatus => x.(dispatcher := Posting, mutex := ByDispatcher)
    case Posting =>
      if x.n < x.max then x.(dispatcher := Signalling, n := x.n + 1, accepted := x.accepted + 1)
      else x.(dispatcher := Releasing, dropped := true)
    case Signalling => x.(dispatcher := Releasing, client := if x.client.Asleep? then Woken else x.client)
    case Releasing => x.(dispatcher := Done, mutex := Nobody)
  }

  function Next(x: Exchange, step: Step): Exchange
    requires Enabled(x, step)
  {
    match step
    case Submit(true) => x.(client := Locking, dispatcher := Holding)
    case Submit(false) => x.(client := Returned, returned := Refused)
    case Deliver => x.(dispatcher := Completing)
    case Client => ClientStep(x)
    case Spurious => x.(client := Woken)
    case Dispatcher => DispatcherStep(Touch(x))
  }

  ghost predicate Run(x: Exchange, steps: seq<Step>)
    decreases |steps|
  {
    steps == [] || (Enabled(x, steps[0]) && Run(Next(x, steps[0]), steps[1..]))
  }

  ghost function After(x: Exchange, steps: seq<Step>): Exchange
    requires Run(x, steps)
    decreases |steps|
  {
    if steps == [] then x else After(Next(x, steps[0]), steps[1..])
  }

  // ----- the invariant -----

  predicate HasPosted(d: DispatcherAt) {
    d.Signalling? || d.Releasing? || d.Done?
  }

  predicate HasTaken(c: ClientAt) {
    c.Unlocking? || c.Reading? || c.Returned?
  }

  predicate HoldsMutex(x: Exchange) {
    match x.mutex
    case ByClient => (x.client.Checking? || x.client.Unlocking?) && !InPost(x.dispatcher)
    case ByDispatcher => InPost(x.dispatcher) && !x.client.Checking? && !x.client.Unlocking?
    case Nobody => !InPost(x.dispatcher) && !x.client.Checking? && !x.client.Unlocking?
  }

  predicate InPost(d: DispatcherAt) {
    d.Posting? || d.Signalling? || d.Releasing?
  }

  ghost predicate Inv(x: Exchange) {
    && HoldsMutex(x) && !x.fault && !x.dropped && x.max == 1
    && x.n <= x.max && x.n == x.accepted - x.taken
    && (x.client.Submitting? || x.returned.Refused? <==> x.dispatcher.NotMine?) && (x.returned.Refused? ==> x.client.Returned?)
    && x.accepted == (if HasPosted(x.dispatcher) then 1 else 0)
    && x.taken == (if HasTaken(x.client) && !x.returned.Refused? then 1 else 0)
    && (x.client.Asleep? ==> x.n == 0 || x.dispatcher.Signalling?)
    && (x.dispatcher.WroteResult? || x.dispatcher.WroteStatus? || x.dispatcher.Posting? || HasPosted(x.dispatcher)
        ==> x.result == x.outcome.handle)
    && (x.dispatcher.WroteStatus? || x.dispatcher.Posting? || HasPosted(x.dispatcher) ==> x.status == x.outcome.code)
    && (HasTaken(x.client) && !x.client.Unlocking? && !x.returned.Refused? ==> x.dispatcher.Done?)
    && (x.client.Returned? && !x.returned.Refused? ==> x.returned == Result(x.outcome))
  }

  lemma NextKeeps(x: Exchange, step: Step)
    requires Inv(x) && Enabled(x, step)
    ensures Inv(Next(x, step)) && Next(x, step).outcome == x.outcome
  {
  }

  lemma {:induction false} RunKeeps(x: Exchange, steps: seq<Step>)
    requires Inv(x) && Run(x, steps)
    ensures Inv(After(x, steps)) && After(x, steps).outcome == x.outcome
    decreases |steps|
  {
    if steps != [] {
      NextKeeps(x, steps[0]);
      RunKeeps(Next(x, steps[0]), steps[1..]);
    }
  }

  // ----- what the client and the dispatcher can rely on -----

  /** In every interleaving: a call that was accepted returns only after the dispatcher is done with
      everything of the client's, and returns what the completion wrote; the dispatcher never uses
      the client's stack after the call has returned; no post is dropped; and the count is the
      number of accepted posts less the number of successful waits. */
  lemma ClientSeesTheCompletion(outcome: Outcome, steps: seq<Step>)
    requires Run(Begin(outcome), steps)
    ensures var x := After(Begin(outcome), steps);
            && !x.fault && !x.dropped
            && 0 <= x.n == x.accepted - x.taken <= x.max
            && (x.client.Returned? && !x.returned.Refused? ==> x.dispatcher.Done? && x.returned == Result(outcome))
            && (x.returned.Refused? ==> x.dispatcher.NotMine?)
  {
    hide Run, After, Next, Enabled;
    RunKeeps(Begin(outcome), steps);
  }

  /** No wake-up is lost: once the dispatcher has let go of the semaphore, the client is not asleep. */
  lemma NoLostWakeup(outcome: Outcome, steps: seq<Step>)
    requires Run(Begin(outcome), steps)
    ensures var x := After(Begin(outcome), steps);
            x.dispatcher.Done? ==> !x.client.Asleep?
  {
    hide Run, After, Next, Enabled;
    RunKeeps(Begin(outcome), steps);
  }

  // ----- the call always returns -----

  function ClientRank(c: ClientAt): nat {
    match c
    case Submitting => 7
    case Woken => 6
    case Locking => 6
    case Checking => 5
    case Asleep => 4
    case Unlocking => 3
    case Reading => 2
    case Returned => 0
  }

  function DispatcherRank(d: DispatcherAt): nat {
    match d
    case NotMine => 8
    case Holding => 7
    case Completing => 6
    case WroteResult => 5
    case WroteStatus => 4
    case Posting => 3
    case Signalling => 2
    case Releasing => 1
    case Done => 0
  }

  function Rank(x: Exchange): nat {
    3 * DispatcherRank(x.dispatcher) + ClientRank(x.client)
  }

  /** Whatever has happened, the call has returned, or the command still waits for its completion, or
      somebody can take a step that is not a spurious wake-up; and each such step brings the return
      nearer. */
  lemma NobodyIsStuck(outcome: Outcome, steps: seq<Step>)
    requires Run(Begin(outcome), steps)
    ensures var x := After(Begin(outcome), steps);
            x.client.Returned? || x.dispatcher.Holding? || Enabled(x, Submit(true)) || Enabled(x, Client) || Enabled(x, Dispatcher)
  {
    RunKeeps(Begin(outcome), steps);
    hide Run, After, Inv, Enabled, Next;
    SomebodyCanMove(After(Begin(outcome), steps));
  }

  lemma SomebodyCanMove(x: Exchange)
    requires Inv(x)
    ensures x.client.Returned? || x.dispatcher.Holding? || Enabled(x, Submit(true)) || Enabled(x, Client) || Enabled(x, Dispatcher)
    ensures x.client.Returned? ==> !x.dispatcher.Holding?
  {
  }

  lemma StepsBringTheReturnNearer(x: Exchange, step: Step)
    requires Inv(x) && Enabled(x, step)
    ensures !step.Spurious? ==> Rank(Next(x, step)) < Rank(x)
    ensures step.Spurious? ==> Rank(Next(x, step)) == Rank(x) + 2
  {
  }

  function SpuriousIn(steps: seq<Step>): nat {
    if steps == [] then 0 else (if steps[0].Spurious? then 1 else 0) + SpuriousIn(steps[1..])
  }

  lemma {:induction false} RankBounds(x: Exchange, steps: seq<Step>)
    requires Inv(x) && Run(x, steps)
    ensures |steps| + Rank(After(x, steps)) <= Rank(x) + 3 * SpuriousIn(steps)
    decreases |steps|
  {
    if steps != [] {
      NextKeeps(x, steps[0]);
      StepsBringTheReturnNearer(x, steps[0]);
      RankBounds(Next(x, steps[0]), steps[1..]);
    }
  }

  /** No interleaving is longer than 31 steps plus three for each spurious wake-up; and one that nobody
      can go on with has ended with the call returned, unless the command has not met its completion. */
  lemma EveryCallReturns(outcome: Outcome, steps: seq<Step>)
    requires Run(Begin(outcome), steps)
    ensures |steps| <= 31 + 3 * SpuriousIn(steps)
    ensures var x := After(Begin(outcome), steps);
            !Enabled(x, Submit(true)) && !Enabled(x, Client) && !Enabled(x, Dispatcher) ==>
              (x.client.Returned? <==> !x.dispatcher.Holding?)
  {
    RankBounds(Begin(outcome), steps);
    RunKeeps(Begin(outcome), steps);
    hide Run, After, Inv, Enabled, Next;
    SomebodyCanMove(After(Begin(outcome), steps));
  }
}
