/** Whose callback a completion runs, and what the callback has submitted when it returns. */
module Callbacks {
  import opened Commands

  /** The kinds whose request has no callback to begin with. */
  predicate NeverCallsBack(kind: Kind) {
    match kind
    case CloseConnection(_) => true
    case Cancel(_) => true
    case FreeRequestContext => true
    case Shutdown => true
    case _ => false
  }

  /** The client waits on a semaphore instead, or has given no callback. */
  predicate TellsOnly(request: Request) {
    request.sync || NeverCallsBack(request.kind)
  }

  /** Of the commands numbered from `first` on, those whose byte was written, in order. */
  function WrittenIds(first: Id, submissions: seq<Submission>): seq<Id>
    decreases |submissions|
  {
    if submissions == [] then []
    else (if submissions[0].wrote then [first] else []) + WrittenIds(first + 1, submissions[1..])
  }

  /** What a submitted command has become: with a dispatcher that runs it has used up one handle; if its
      byte was written it is queued under that handle, and otherwise it is deleted. */
  ghost predicate IsSubmitted(a: Core, b: Core, submission: Submission, i: nat) {
    var c := a.nextId + i;
    && c in b.cmds && b.cmds[c].request == submission.request
    && (c in b.live <==> a.running && submission.wrote)
    && b.cmds[c].serial == if a.running && submission.wrote then a.issued + i + 1 else 0
  }

  /** `b` is what the submissions make of `a`. */
  ghost predicate AllSubmitted(a: Core, b: Core, submissions: seq<Submission>) {
    && b.nextId == a.nextId + |submissions|
    && b.running == a.running
    && b.issued == a.issued + (if a.running then |submissions| else 0)
    && (forall i: nat :: i < |submissions| ==> IsSubmitted(a, b, submissions[i], i))
    && (var written := if a.running then WrittenIds(a.nextId, submissions) else [];
        b.queue == a.queue + written && b.accepted == a.accepted + written && b.pipe == a.pipe + |written|)
    && (forall c: Id :: c < a.nextId ==> SameCommand(a, b, c))
  }

  ghost predicate SameCommand(a: Core, b: Core, c: Id) {
    && (c in a.cmds <==> c in b.cmds) && (c in a.cmds ==> b.cmds[c] == a.cmds[c])
    && (c in a.live <==> c in b.live) && History(a, c) == History(b, c)
  }

  /** `b` is `a` after `c` has been told one outcome: its callback has run to the end, if it has one, and
      has submitted one command for each of its submissions; nothing else has been built or queued. */
  ghost predicate CalledBack(a: Core, b: Core, c: Id, outcome: Outcome)
    requires c in a.cmds
  {
    var request := a.cmds[c].request;
    var told := a.(history := a.history[c := History(a, c) + [outcome]]);
    if TellsOnly(request) then b == told else AllSubmitted(told, b, request.callback)
  }

  // ----- proofs -----

  lemma OthersStay(a: Core, submission: Submission, c: Id)
    requires c < a.nextId
    ensures SameCommand(a, Submit(Build(a, submission.request), a.nextId, submission.wrote), c)
  {
  }

  lemma NewIsSubmitted(a: Core, submission: Submission)
    ensures IsSubmitted(a, Submit(Build(a, submission.request), a.nextId, submission.wrote), submission, 0)
  {
  }

  lemma SubmitOne(a: Core, submission: Submission)
    ensures AllSubmitted(a, Submit(Build(a, submission.request), a.nextId, submission.wrote), [submission])
  {
    hide SameCommand, IsSubmitted;
    var b := Submit(Build(a, submission.request), a.nextId, submission.wrote);
    NewIsSubmitted(a, submission);
    assert WrittenIds(a.nextId, [submission]) == if submission.wrote then [a.nextId] else [];
    forall c: Id | c < a.nextId ensures SameCommand(a, b, c) {
      OthersStay(a, submission, c);
    }
  }

  lemma NothingSubmitted(a: Core)
    ensures AllSubmitted(a, a, [])
  {
  }

  lemma {:induction false} WrittenAppend(first: Id, submission: Submission, rest: seq<Submission>)
    ensures WrittenIds(first, [submission] + rest) == WrittenIds(first, [submission]) + WrittenIds(first + 1, rest)
  {
    assert ([submission] + rest)[1..] == rest;
    assert WrittenIds(first, [submission]) == if submission.wrote then [first] else [];
  }

  lemma SubmittedThen(a: Core, b: Core, d: Core, submission: Submission, rest: seq<Submission>)
    requires AllSubmitted(a, b, [submission]) && AllSubmitted(b, d, rest)
    ensures AllSubmitted(a, d, [submission] + rest)
  {
    hide SameCommand, IsSubmitted, WrittenIds;
    var all := [submission] + rest;
    forall i: nat | i < |all| ensures IsSubmitted(a, d, all[i], i) {
      SubmittedAt(a, b, d, submission, rest, i);
    }
    forall c: Id | c < a.nextId ensures SameCommand(a, d, c) {
      SameTwice(a, b, d, c);
    }
    QueuedThen(a, b, d, submission, rest);
  }

  lemma QueuedThen(a: Core, b: Core, d: Core, submission: Submission, rest: seq<Submission>)
    requires AllSubmitted(a, b, [submission]) && AllSubmitted(b, d, rest)
    ensures var written := if a.running then WrittenIds(a.nextId, [submission] + rest) else [];
            d.queue == a.queue + written && d.accepted == a.accepted + written && d.pipe == a.pipe + |written|
  {
    WrittenAppend(a.nextId, submission, rest);
    hide SameCommand, IsSubmitted, WrittenIds;
  }

  lemma SameTwice(a: Core, b: Core, d: Core, c: Id)
    requires SameCommand(a, b, c) && SameCommand(b, d, c)
    ensures SameCommand(a, d, c)
  {
  }

  lemma SubmittedAt(a: Core, b: Core, d: Core, submission: Submission, rest: seq<Submission>, i: nat)
    requires AllSubmitted(a, b, [submission]) && AllSubmitted(b, d, rest) && i < 1 + |rest|
    ensures IsSubmitted(a, d, ([submission] + rest)[i], i)
  {
    if i == 0 {
      assert IsSubmitted(a, b, [submission][0], 0);
      assert SameCommand(b, d, a.nextId);
    } else {
      assert IsSubmitted(b, d, rest[i - 1], i - 1);
    }
  }

  lemma {:induction false} SubmitAllSubmits(a: Core, submissions: seq<Submission>)
    ensures AllSubmitted(a, SubmitAll(a, submissions), submissions)
    decreases |submissions|
  {
    hide AllSubmitted, Submit;
    if submissions == [] {
      NothingSubmitted(a);
    } else {
      var b := Submit(Build(a, submissions[0].request), a.nextId, submissions[0].wrote);
      SubmitOne(a, submissions[0]);
      SubmitAllSubmits(b, submissions[1..]);
      SubmittedThen(a, b, SubmitAll(b, submissions[1..]), submissions[0], submissions[1..]);
      assert [submissions[0]] + submissions[1..] == submissions;
    }
  }

  /** A completion of a live command runs its callback, and that of no other. */
  lemma CompleteCallsBack(a: Core, c: Id, outcome: Outcome)
    requires IsLive(a, c)
    ensures CalledBack(a, Complete(a, c, outcome), c, outcome)
  {
    hide AllSubmitted;
    var told := a.(history := a.history[c := History(a, c) + [outcome]]);
    SubmitAllSubmits(told, a.cmds[c].request.callback);
  }

  // ----- every completion of a run has run its callback -----

  /** The submissions of the callback of `c` are the commands from `first` on. */
  ghost predicate BuiltFrom(a: Core, first: Id, callback: seq<Submission>) {
    && first + |callback| <= a.nextId
    && forall i: nat :: i < |callback| ==> Builds(a, first + i, callback[i])
  }

  ghost predicate Builds(a: Core, c: Id, submission: Submission) {
    c in a.cmds && a.cmds[c].request == submission.request
  }

  lemma BuiltStay(a: Core, b: Core, first: Id, callback: seq<Submission>)
    requires BuiltFrom(a, first, callback) && KeepsRequests(a, b)
    ensures BuiltFrom(b, first, callback)
  {
    forall i: nat | i < |callback| ensures Builds(b, first + i, callback[i]) {
      assert Builds(a, first + i, callback[i]);
    }
  }

  ghost predicate Apart(a: Core, starts: map<Id, Id>, c: Id, d: Id)
    requires c in a.cmds && c in starts && d in a.cmds && d in starts
  {
    starts[c] + |a.cmds[c].request.callback| <= starts[d] || starts[d] + |a.cmds[d].request.callback| <= starts[c]
  }

  ghost predicate RecordsKnown(a: Core) {
    (forall c :: c in a.cmds ==> c < a.nextId) && a.history.Keys <= a.cmds.Keys
  }

  /** `starts` gives for each completed command with a callback the first command it built. No two
      callbacks share a command. */
  ghost predicate StartsAt(a: Core, starts: map<Id, Id>) {
    && RecordsKnown(a)
    && (forall c :: c in a.cmds && History(a, c) != [] && !TellsOnly(a.cmds[c].request) ==> c in starts)
    && (forall c :: c in starts ==> c in a.cmds && BuiltFrom(a, starts[c], a.cmds[c].request.callback))
    && (forall c, d :: c in starts && d in starts && c != d ==> Apart(a, starts, c, d))
  }

  ghost predicate EachCalledBack(a: Core) {
    exists starts :: StartsAt(a, starts)
  }

  ghost predicate KeepsRequests(a: Core, b: Core) {
    && a.nextId <= b.nextId && RecordsKnown(b)
    && (forall c :: c in a.cmds ==> c in b.cmds && b.cmds[c].request == a.cmds[c].request)
  }

  ghost predicate Quiet(a: Core, b: Core) {
    KeepsRequests(a, b) && b.history == a.history
  }

  lemma StartsStay(a: Core, b: Core, starts: map<Id, Id>)
    requires StartsAt(a, starts) && KeepsRequests(a, b)
    requires forall c :: c in b.cmds && History(b, c) != [] && !TellsOnly(b.cmds[c].request) ==> c in starts
    ensures StartsAt(b, starts)
  {
    forall c | c in starts ensures c in b.cmds && BuiltFrom(b, starts[c], b.cmds[c].request.callback) {
      BuiltStay(a, b, starts[c], a.cmds[c].request.callback);
    }
    forall c, d | c in starts && d in starts && c != d ensures Apart(b, starts, c, d) {
      assert Apart(a, starts, c, d);
    }
  }

  lemma QuietKeeps(a: Core, b: Core)
    requires EachCalledBack(a) && (RecordsKnown(a) ==> Quiet(a, b))
    ensures EachCalledBack(b)
  {
    var starts :| StartsAt(a, starts);
    StartsStay(a, b, starts);
  }

  lemma QuietStep(a: Core, b: Core)
    requires RecordsKnown(a) ==> Quiet(a, b)
    ensures EachCalledBack(a) ==> EachCalledBack(b)
  {
    if EachCalledBack(a) {
      QuietKeeps(a, b);
    }
  }

  lemma SubmissionIsQuiet(a: Core, request: Request, wrote: bool)
    requires RecordsKnown(a)
    ensures Quiet(a, Submit(Build(a, request), a.nextId, wrote))
  {
  }

  lemma {:induction false} SubmitAllIsQuiet(a: Core, submissions: seq<Submission>)
    requires RecordsKnown(a)
    ensures Quiet(a, SubmitAll(a, submissions))
    decreases |submissions|
  {
    if submissions != [] {
      hide Submit;
      var b := Submit(Build(a, submissions[0].request), a.nextId, submissions[0].wrote);
      SubmissionIsQuiet(a, submissions[0].request, submissions[0].wrote);
      SubmitAllIsQuiet(b, submissions[1..]);
    }
  }

  lemma SubmitAllKeepsCalls(a: Core, submissions: seq<Submission>)
    requires EachCalledBack(a)
    ensures EachCalledBack(SubmitAll(a, submissions))
  {
    hide EachCalledBack, SubmitAll, Quiet;
    if RecordsKnown(a) {
      SubmitAllIsQuiet(a, submissions);
    }
    QuietKeeps(a, SubmitAll(a, submissions));
  }

  /** The new callback has built its commands after all the others. */
  lemma CompletionCalls(a: Core, c: Id, outcome: Outcome, starts: map<Id, Id>)
    requires IsLive(a, c) && StartsAt(a, starts)
    ensures EachCalledBack(Complete(a, c, outcome))
  {
    var request := a.cmds[c].request;
    var told := a.(history := a.history[c := History(a, c) + [outcome]]);
    var b := Complete(a, c, outcome);
    SubmitAllIsQuiet(told, CallbackOf(request));
    CompleteCallsBack(a, c, outcome);
    hide SubmitAll, CallbackOf, BuiltFrom, Apart;
    if TellsOnly(request) {
      StartsStay(a, b, starts);
    } else {
      CallsGrow(a, b, c, outcome, starts);
    }
  }

  lemma CallsGrow(a: Core, b: Core, c: Id, outcome: Outcome, starts: map<Id, Id>)
    requires c in a.cmds && StartsAt(a, starts) && KeepsRequests(a, b)
    requires CalledBack(a, b, c, outcome) && !TellsOnly(a.cmds[c].request)
    requires b.history == a.history[c := History(a, c) + [outcome]]
    ensures StartsAt(b, starts[c := a.nextId])
  {
    var grown := starts[c := a.nextId];
    forall d | d in grown ensures d in b.cmds && BuiltFrom(b, grown[d], b.cmds[d].request.callback) {
      if d == c {
        CallbackBuilds(a, b, c, outcome);
      } else {
        BuiltStay(a, b, starts[d], a.cmds[d].request.callback);
      }
    }
    forall d, e | d in grown && e in grown && d != e ensures Apart(b, grown, d, e) {
      if d == c {
        assert BuiltFrom(a, starts[e], a.cmds[e].request.callback);
      } else if e == c {
        assert BuiltFrom(a, starts[d], a.cmds[d].request.callback);
      } else {
        assert Apart(a, starts, d, e);
      }
    }
  }

  lemma CallbackBuilds(a: Core, b: Core, c: Id, outcome: Outcome)
    requires c in a.cmds && CalledBack(a, b, c, outcome) && !TellsOnly(a.cmds[c].request)
    ensures BuiltFrom(b, a.nextId, a.cmds[c].request.callback)
  {
    var told := a.(history := a.history[c := History(a, c) + [outcome]]);
    var callback := a.cmds[c].request.callback;
    forall i: nat | i < |callback| ensures Builds(b, a.nextId + i, callback[i]) {
      assert IsSubmitted(told, b, callback[i], i);
    }
  }

  /** Completing a command keeps it so that every completed command has had its callback run. */
  lemma CompleteKeepsCalls(a: Core, c: Id, outcome: Outcome)
    requires EachCalledBack(a)
    ensures EachCalledBack(Complete(a, c, outcome))
  {
    hide StartsAt;
    if IsLive(a, c) {
      var starts :| StartsAt(a, starts);
      CompletionCalls(a, c, outcome, starts);
    } else {
      hide EachCalledBack;
      QuietKeeps(a, Fault(a));
    }
  }
}
