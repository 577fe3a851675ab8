/** The life cycle of a command and the hand-off to the client that waits for it, put together. */
module SyncCalls {
  import opened Commands
  import opened Connections
  import opened Runs
  import opened Shutdowns

  import HandOff

  /** The client that waits for command `c`, and the dispatcher, have got as far as the life cycle has:
      the command is the dispatcher's once it has been accepted, and its outcome is about to be delivered,
      or has been, once the completion is on record. */
  ghost predicate KeepsUp(a: Core, c: Id, x: HandOff.Exchange) {
    && (c in a.accepted <==> !x.dispatcher.NotMine?)
    && (c in a.accepted ==> (x.dispatcher.Holding? <==> History(a, c) == []))
  }

  /** Nobody can move any more, spurious wake-ups aside. */
  predicate AtRest(x: HandOff.Exchange) {
    && !HandOff.Enabled(x, HandOff.Submit(true)) && !HandOff.Enabled(x, HandOff.Client)
    && !HandOff.Enabled(x, HandOff.Dispatcher)
  }

  /** Every synchronous caller whose submission was accepted returns by the end of the shutdown, and is
      given the one outcome its command had: for every run that ends with the dispatcher destroyed and
      opens no connection after the shutdown, and every interleaving of the caller with the dispatcher
      that keeps up with it and has come to rest. */
  lemma AcceptedCallersReturn(steps: seq<Step>, c: Id, outcome: Outcome, calls: seq<HandOff.Step>)
    requires Run(INITIAL, steps) && NoOpenAfterQuit(INITIAL, steps) && Ended(After(INITIAL, steps).core)
    requires OwedCompletion(After(INITIAL, steps).core, c)
    requires HandOff.Run(HandOff.Begin(outcome), calls)
    requires KeepsUp(After(INITIAL, steps).core, c, HandOff.After(HandOff.Begin(outcome), calls))
    requires AtRest(HandOff.After(HandOff.Begin(outcome), calls))
    requires History(After(INITIAL, steps).core, c) != [] ==> outcome == History(After(INITIAL, steps).core, c)[0]
    ensures var x := HandOff.After(HandOff.Begin(outcome), calls);
            && x.client.Returned? && x.returned == HandOff.Result(outcome)
            && History(After(INITIAL, steps).core, c) == [outcome]
  {
    ShutdownLosesNobody(steps);
    var a := After(INITIAL, steps).core;
    assert |History(a, c)| == 1;
    hide Run, After, NobodyIsLost, OwedCompletion;
    HandOff.EveryCallReturns(outcome, calls);
    HandOff.ClientSeesTheCompletion(outcome, calls);
  }
}
