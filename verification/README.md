# A verified model of the D-Bus service IPC library

The library turns every D-Bus operation into a heap-allocated command. A client thread builds the
command and hands it to one dispatcher thread through a queue and a pipe; the dispatcher executes
it; and the command may then be parked on a reference-counted connection until a reply, a
cancellation, the end of the connection or the end of the dispatcher completes and deletes it. This
project models that life cycle, together with the blocking hand-off to synchronous clients, the
start of the dispatcher thread, the event loop, object-path introspection and signal matching, and
proves what each of them promises. Nothing here was executed.

## How it is organised

| file | contents |
|---|---|
| Handles.dfy, Wrappers.dfy | the 32-bit handle counter; an optional value |
| Commands.dfy, Connections.dfy | the protocol as functions on a state: command objects, queue, pipe, pending calls, completions; the connection cache, reference counts, `execute` and `onPendingCallNotify` of every command family |
| CoreInvariant.dfy, Invariant.dfy | what every operation keeps |
| Callbacks.dfy | whose callback a completion runs, and what it has submitted when it returns |
| Execution.dfy, Replies.dfy | executing a command, and answering a pending one, keeps the invariant |
| ExecutionOutcomes.dfy | what the client of each kind of command is told when it is executed, as conditions on the state before and on the answers of D-Bus |
| Outcomes.dfy | what a reply makes of a pending command, and what its client is told |
| Progress.dfy | what no operation undoes, in any state |
| Runs.dfy, Guarantees.dfy | all interleavings of clients with the dispatcher; what holds in every reachable state and between two states of a run |
| Shutdowns.dfy | nothing accepted is lost at shutdown; when it would be |
| OpenedTooLate.dfy, ShutdownCaller.dfy | a run that loses a command; the client in `DBUSIPC_shutdown` |
| Cancellation.dfy, Releases.dfy, References.dfy | cancelling by handle; reference conservation, releasing everything; opens and closes over a run |
| Preconditions.dfy, UnusableReplies.dfy | the replies and requests the library copes with, as exact conditions; what the others leave |
| Removals.dfy, TwoRemovals.dfy | two removals of one object in flight; a run that gets there |
| Library.dfy | the same operations as methods of a class that changes its fields in place, each proved against the protocol functions, and its entry points proved to keep the invariant |
| Semaphores.dfy, HandOff.dfy, SyncCalls.dfy | the counting semaphore; a synchronous call as two interleaved threads; the call and the life cycle put together |
| ThreadStart.dfy | `Thread::start`, `stop` and `threadFunc` as interleaved threads |
| Timers.dfy, Watches.dfy | the event loop: expiry bookkeeping, the wait of `poll`, expired timers; event translation, the watch pass |
| ObjectPaths.dfy, Signals.dfy | introspection and bus-name conversion; match rules and signal fan-out |

Objects are named by identities that are never used twice, in place of addresses. Touching an object
that has been deleted raises `fault`, and the invariant says that this never happens. The seven
command families that wait for a reply share one shape and are modelled by one parameterised pending
command with an action for each family. What D-Bus answers (`Opening`, `Answer`, `Reply`), whether the
pipe takes a byte, and what user callbacks submit are parameters, so every statement is about all of
them. Ordered containers of pointers are visited in order of identity.

## What is assumed of the surroundings

The statements about runs assume, at each step (`Runs.Allowed`):

- a reply is an error or a method return, and the connection is still up where the family looks at
  that. `Preconditions.NotifyKeepsIffUsable` shows that the invariant survives no other reply, and
  `UnusableReplies` what such a reply leaves: a completed command that is still pending, or a command
  deleted in silence;
- at most one removal of a subscription or registration is in flight, as
  `Removals.SecondRemovalFaultsIff` shows is necessary, and `TwoRemovals` can come about;
- a signal is emitted through a registration that still exists, as
  `Preconditions.EmitFaultsIffStale` shows is necessary;
- no reply comes for an owner-changed subscription that was cancelled; its `cancel` leaves the call
  alone, and `Preconditions.NotifyFaultsIffDeleted` shows what a late reply does.

A user callback runs on the dispatcher thread, uses the asynchronous interface only, does not throw,
and makes finitely many submissions; the synchronous interface refuses that thread. A pending call
that has been cancelled or whose reply has been stolen does not notify.

Four kinds of command may end without a completion by design (`Commands.MayStaySilent`): freeing a
request context, shutdown when it is cancelled, an emitted signal without a registration, and an
invocation that expects no reply.

## Where the code departs from its intent

- Waiting for the dispatcher after a refused shutdown command waits for a thread nobody told to stop
  (src/svcipc_api.cpp:150-164): `ShutdownCaller.ShutdownReturnsIffAccepted`.
- A connection opened behind the shutdown command can leave an accepted command without a completion:
  `OpenedTooLate.TheStartCanLose`, with the exact condition in `Shutdowns.NobodyIsLostIffNothingCached`.
- `Thread::start` clears the quit flag before it looks whether the thread runs (src/Thread.cpp:42-46). The
  one caller, `DBUSIPC_initialize`, asks first, so it takes two concurrent initialisations, which are
  documented as not allowed, to lose a request to stop: `ThreadStart.StopIsLostIffConcurrentStart`.
- A reply that cannot be read leaves its command in the pending set, and three families have deleted it by
  then (src/Command.cpp:621-630): `UnusableReplies.ReleaseAfterUnreadFaultsIff`.
- The pass over expired timers does not check that a timer still exists, unlike the watch pass:
  `Timers.HandleExpired`.
- A name with an apostrophe in it makes a match rule that the bus reads differently:
  `Signals.RuleIsUnderstood`.

## Model

| member | source | states |
|---|---|---|
| Handles.NthHandle | src/Dispatcher.cpp:550-559 | the n-th call of `getNextHandle` returns ((n-1) mod (2^32-1)) + 1, never the invalid handle |
| Handles.HandlesCollide | src/Dispatcher.cpp:550-559 | two calls return the same handle if and only if they are a whole number of periods apart |
| Handles.WindowDistinct | src/Dispatcher.cpp:550-559 | any 2^32-1 consecutive handles are pairwise distinct, across the wrap-around |
| Library.Library.GetNextHandle | src/Dispatcher.cpp:550-559 | the counter is incremented once, or twice over zero |
| Library.Library.SubmitCommand | src/Dispatcher.cpp:562-589 | accepted if and only if the dispatcher runs and the byte is written: queued, a byte in the pipe, the handle set; after a failed write the queue is as before; a running dispatcher uses up one handle either way, a stopped one none |
| Library.Library.NewCommand | src/Command.cpp:349-383 | a command is built, alive and held by its client; a good state stays good |
| Library.Library.SubmitCmd | src/svcipc_api.cpp:22-63 | an accepted command passes to the dispatcher, a refused one is deleted; a good state stays good |
| Library.Library.RunCallback | src/svcipc_api.cpp:22-63 | the submissions of a callback, one after the other: the i-th builds the i-th command from now on; while the dispatcher runs each uses up a handle, and exactly those whose byte was written are queued, in order, the others deleted; there is a byte in the pipe for each queued command all the time |
| Library.Library.Complete | src/Command.cpp:2056-2084 | the outcome is put on record; the callback of an asynchronous request runs to its end, and has built and submitted one command for each of its submissions; for a synchronous request, or a kind without a callback, nothing is built or queued; the invariant is kept |
| Library.Library.CancelCommand | src/Command.cpp:434-463 | a command in hand is told once that it is cancelled, its call will not notify any more (but for owner-changed subscriptions), and the invariant is kept |
| Library.Library.DecRef | src/Connection.cpp:415-467 | one reference less; the last takes the wrapper out of the cache and destroys it |
| Library.Library.DestroyWrapper | src/Connection.cpp:372-402 | out of the dispatcher's list; every pending command cancelled and deleted; every subscription and registration freed |
| Library.Library.Release | src/Connection.cpp:167-180 | a release keeps the invariant, with any commands in hand; of a connection that is not cached it does nothing |
| Library.Library.ForceReleaseAll | src/Connection.cpp:183-197 | the nested loops end, and do what dropping references on the first connection until the cache is empty does |
| Library.Library.FindWrapper | src/Connection.cpp:70-77 | the search finds the cached wrapper of the underlying connection, if there is one |
| Library.Library.Create | src/Connection.cpp:25-91 | a cached wrapper is shared, else a new one is entered, unless its set-up fails |
| Library.Library.CancelPendingByHandle | src/Connection.cpp:217-247 | the first pending command with the handle is cancelled, deleted and erased; NOT_FOUND if there is none |
| Library.Library.SignalSubExists | src/Connection.cpp:249-268 | true if and only if some cached connection has the subscription |
| Library.Library.ServiceRegExists | src/Connection.cpp:271-290 | true if and only if some cached connection has the registration |
| Library.Library.Execute | src/Dispatcher.cpp:86-89 | a command in hand, of whatever class, is parked and kept, or completed once, or one that may stay silent; and its client has been told the outcome that `ExecutionOutcomes.Told` gives for its kind |
| Library.Library.ExecuteNext | src/Dispatcher.cpp:77-100 | one turn leads from a good state to a good one, in which the front command is pending and kept, or deleted and completed once unless it may stay silent, and its client has been told the outcome that `ExecutionOutcomes.Told` gives |
| Library.Library.OnCommand | src/Dispatcher.cpp:57-105 | the loop runs a turn for each queued command and keeps the queue and the pipe in step, so that its read never blocks; a good state stays good |
| Library.TurnsAreSteps | src/Dispatcher.cpp:57-105 | from a good state the loop is a run of single executions, as long as each command may be executed when its turn comes, and ends in a good state |
| Library.TurnsEndWhenDone | src/Dispatcher.cpp:75-100 | the loop ends only when nothing is queued or the dispatcher has stopped |
| Library.Library.HandOver | src/Command.cpp:656-663 | the new object belongs to its connection, the command has been completed once and has let go of it, and the invariant is kept |
| Library.Library.TakeAway | src/Command.cpp:1016-1024 | the object has left its connection and been freed, the command has been completed once, and the invariant is kept |
| Library.Library.OnPendingCallNotify | src/Command.cpp:610-727 | a usable reply to a pending command leads from a good state to a good one: the command has the outcome it is owed and is gone, and of the connections only its own has changed |
| Library.Library.DispatchPending | src/Dispatcher.cpp:123-149 | the sweep over the connections with messages, with erasure while iterating over a list that grows; a good state stays good |
| Library.SweepSkipsNobody | src/Dispatcher.cpp:123-149 | exactly the connections that are done leave the list, those added meanwhile included, and the others keep their order |
| Library.Library.OnDataRemains | src/Connection.cpp:717-735 | the list names only connections that exist, before and after; a good state stays good |
| Library.Library.ThreadExit | src/Thread.cpp:200-203 | once the loop has quit, ending the thread keeps a good state good |
| Library.Library.DestroyDispatcher | src/Dispatcher.cpp:39-55 | whatever is still queued is deleted, and told that it was cancelled unless it is of the two kinds that are told nothing; a good state stays good |
| CoreInvariant.SubmitKeeps | src/Dispatcher.cpp:562-589 | accepting or refusing keeps single ownership, order, serials and completions |
| CoreInvariant.CancelAllKeeps | src/Connection.cpp:378-385 | finishing a pending set completes each of its commands once, deletes it, and touches no other |
| Invariant.DestroyKeeps | src/Connection.cpp:372-402 | destroying a connection keeps the invariant and finishes exactly its pending commands |
| Invariant.CreateKeeps | src/Connection.cpp:25-91 | obtaining a connection keeps counts, references and the injectivity of the cache |
| Invariant.ForceReleaseAllKeeps | src/Connection.cpp:183-197 | releasing everything keeps the invariant and spares the commands in hand |
| Execution.ExecuteSettles | src/Dispatcher.cpp:85-99 | after `execute` of any class, the keep flag is set if and only if the command is parked; if not, it has been completed once or may stay silent, and its call cannot notify |
| ExecutionOutcomes.ExecuteTells | src/Command.cpp:1925-2020 | the outcome of executing each kind: a request that waits for a reply is kept if and only if all steps succeed, and told nothing then; otherwise NOT_FOUND if and only if what it names is missing, NOT_CONNECTED if and only if its connection is gone or closed, else NO_MEMORY, and never success; an emitted signal reports success if and only if it was sent, an opening if and only if it gives a handle, a reply BAD_ARGS if and only if it has no context |
| ExecutionOutcomes.FrontTells | src/Dispatcher.cpp:77-100 | the same of one turn of the dispatcher, from any good state |
| ExecutionOutcomes.CancelTellsOfTarget | src/Command.cpp:2361-2374 | a command that cancels by a handle returned earlier is told success if and only if its target was pending, and NOT_FOUND otherwise |
| Callbacks.CompleteCallsBack | src/Command.cpp:2213-2233 | completing a live command runs its own callback, once and to the end, and no other; the commands it submits come into being in order, with their requests |
| Execution.FinishPendingKeeps | src/Connection.cpp:233-243 | cancel, delete and erase finishes exactly the one command |
| Replies.UsableReplyKeeps | src/Command.cpp:631-727 | a usable reply keeps the invariant in every family |
| Replies.UnregisterFirst | src/Command.cpp:654-720 | taking the command out of the pending set before or after acting on the reply makes no difference |
| Outcomes.ReplyIsAnswered | src/Command.cpp:631-727 | the outcome owed is delivered, the command is deleted and no longer pending, and of the connections only its own changes, as the outcome says |
| Outcomes.CreationIsReported | src/Command.cpp:654-710 | success and the handle are reported if and only if the object now exists, in its connection; otherwise it has been freed |
| Outcomes.RemovalIsReported | src/Command.cpp:1016-1041 | success is reported if and only if the object is gone |
| Progress.ExecuteSteady | src/Dispatcher.cpp:86-89 | in any state, executing keeps records, only adds completions, never revives, moves queue and pipe together; only a shutdown sets the quit flag |
| Progress.NotifySteady | src/Command.cpp:610-727 | the same of a notification |
| Runs.NextKeeps | src/Dispatcher.cpp:57-105 | every step of client, dispatcher thread, D-Bus, exit and destruction keeps the invariant |
| Runs.RunKeeps | src/Dispatcher.cpp:57-105 | so does every run |
| Guarantees.SingleHolder | src/Dispatcher.cpp:77-100 | in every reachable state a command object is in exactly one place among submitter, slots of the queue and pending sets, or has been deleted |
| Guarantees.CompletedAtMostOnce | src/Command.cpp:582-607 | in every prefix of every run at most one completion, none for a command still live, and no deleted object touched or deleted again |
| Guarantees.NoLateNotify | src/Command.cpp:2027-2053 | a pending call that can still fire belongs to a live command in the pending set of its connection |
| Guarantees.KeptIffPending | src/Command.cpp:547-571 | the keep flag is set if and only if the command is pending |
| Guarantees.QueueAndPipeInLockstep | src/Dispatcher.cpp:562-589 | while the dispatcher runs there is a byte in the pipe for each queued command; execution order is acceptance order |
| Guarantees.ReentrantSubmitsInLockstep | src/Dispatcher.cpp:562-589 | so it is each time a callback submits while a command executes, however far the execution has got |
| Guarantees.NothingIsUndone | src/Dispatcher.cpp:77-100 | later in a run: orders only extend, handles stay, a deleted command stays deleted and is not completed again |
| Guarantees.EveryCompletionCallsBack | src/Command.cpp:2079-2083 | in every reachable state each command completed so far has had its callback run: what the callback submits has been built, in order, by commands that no other callback shares |
| Shutdowns.ShutdownLosesNobody | src/Dispatcher.cpp:39-55 | with no connection opened after the shutdown, every accepted command owed a completion has it exactly once when the dispatcher is gone, wherever it was, and is deleted |
| Shutdowns.DrainTellsCancelled | src/Dispatcher.cpp:39-55 | when the dispatcher is destroyed, each queued command is deleted, with the cancellation as its one outcome, unless it frees a request context or is a shutdown |
| Shutdowns.NobodyIsLostIffNothingCached | src/Command.cpp:2664-2681 | when the loop has quit and the queue is empty: every way the run can go on without opening a connection delivers all owed completions, if and only if no connection is cached at that moment |
| OpenedTooLate.TheStartCanLose | src/Thread.cpp:197-203 | a run from the start that loses an accepted invocation, made by the callback of a connection opened behind the shutdown |
| Shutdowns.QuitIffShutdownTaken | src/Command.cpp:2664-2681 | the loop has been told to quit if and only if a shutdown command has been executed, and the thread ends only then |
| ShutdownCaller.ShutdownReturnsIffAccepted | src/svcipc_api.cpp:137-164 | the caller of shutdown on an idle dispatcher can get past its two waits, without anybody else's shutdown, if and only if its submission was accepted, or the loop had been told to quit before |
| ShutdownCaller.RefusedShutdownHangs | src/svcipc_api.cpp:137-164 | the input that fails, from the start: the byte for the shutdown command cannot be written, and no run lets the caller through |
| SyncCalls.AcceptedCallersReturn | src/svcipc_api.cpp:339-364 | every accepted synchronous caller has returned by the end of the shutdown, with the one outcome of its command |
| Cancellation.CancelIsPrecise | src/Command.cpp:2361-2389 | the target of a handle from an earlier submission is never still queued; Ok if and only if it is pending, and then exactly it is finished and erased; else NOT_FOUND and nothing changes |
| Cancellation.StaleHandleHitsAliases | src/Connection.cpp:217-247 | the target of a handle is reported as found if and only if some pending command is a whole number of handle periods away from it |
| References.OpensLessCloses | src/Connection.cpp:167-180 | until a shutdown, a connection is there if and only if clients have been given it more often than they have closed it; the difference is its count and the number of references held |
| Releases.ReferencesConserved | src/Connection.cpp:405-467 | creates less releases = wrapper count = D-Bus references, at least 1; one wrapper for each underlying connection, and none held without a wrapper |
| Releases.ReleaseGivesUpOne | src/Connection.cpp:167-180 | with any commands in hand: exactly one reference on one connection goes; the wrapper goes with its last reference; an uncached release is a no-op |
| Releases.CreateTakesOne | src/Connection.cpp:25-91 | with any commands in hand: success takes exactly one reference and gives the handle of the one wrapper; failure leaves neither wrapper nor reference |
| Releases.NewWrapperIsListed | src/Connection.cpp:293-371 | a connection not cached before is the newest wrapper, private or not as asked, with one reference and nothing pending or owned, last in the dispatcher's list; one cached before has a reference more and is otherwise as it was; no other wrapper changes |
| Releases.ForceReleaseAllReleasesEverything | src/Connection.cpp:183-197 | with any commands in hand: empty cache, no reference held, no destroyed connection listed, each formerly pending command cancelled once and deleted, no other touched, no object left in a connection |
| Preconditions.NotifyKeepsIffUsable | src/Command.cpp:621-630 | a notification keeps the invariant if and only if its reply is an error or a return, with the connection up where that is looked at |
| UnusableReplies.UnreadReplyStaysPending | src/Command.cpp:621-630 | after a reply that cannot be read the command has been told of an internal error and is still in the pending set, deleted if and only if it is an invocation or a subscription of either kind |
| UnusableReplies.ReleaseAfterUnreadFaultsIff | src/Connection.cpp:378-385 | giving up the last reference on that connection then touches a deleted command if and only if it was one of those three kinds |
| UnusableReplies.OtherReplyIsSilent | src/Command.cpp:713-727 | after a reply of any other type the command is gone and has been told nothing |
| Preconditions.NotifyFaultsIffDeleted | src/Command.cpp:3032-3043 | a notification touches freed memory if and only if its command is not pending, which takes a cancelled owner-changed subscription |
| Preconditions.ObjectHasOneOwner | src/Command.cpp:654-663 | a subscription or registration belongs to its creating command or to the one connection it names; a freed one to nobody |
| Preconditions.PendingRemovalFindsObject | src/Connection.cpp:378-393 | a pending removal names an object still in the set of its own connection |
| Preconditions.StaleHandleIsNotFound | src/Command.cpp:842-861 | the front command, if it removes an object, looks into it if and only if the object has been handed over and not freed; otherwise it is answered with not-found |
| Removals.SecondRemovalFaultsIff | src/Command.cpp:970-1041 | with two removals of one object parked and usable replies, the second notification reads freed memory if and only if the first reply is a method return |
| TwoRemovals.TwoRemovalsCanBeParked | src/Command.cpp:842-967 | a run from the start that parks both |
| Preconditions.EmitFaultsIffStale | src/Command.cpp:2251-2290 | emitting goes wrong if and only if the registration no longer exists |
| Semaphores.Semaphore.constructor | src/Semaphore_POSIX.cpp:12-18 | a semaphore that starts at zero is binary |
| Semaphores.Semaphore.Post | src/Semaphore_POSIX.h:37-64 | a post is accepted if and only if there is room; the count is always initial + accepted posts - successful waits, between 0 and the maximum |
| Semaphores.Semaphore.WaitTimed | src/Semaphore_POSIX.cpp:63-125 | the wait loop, for any way its sleeps end |
| Semaphores.WaitConserves | src/Semaphore_POSIX.cpp:63-125 | a wait takes one unit if and only if it reports success |
| Semaphores.AsleepMeansNothingPosted | src/Semaphore_POSIX.cpp:63-84 | a thread sleeps on if and only if nothing has been posted |
| Semaphores.FirstEventDecides | src/Semaphore_POSIX.cpp:63-125 | a unit that is there is taken at once; otherwise the first sleep that brings a post or does not end with a wake-up decides: a unit is taken if the thread was woken, and everything posted is left if it was not |
| Semaphores.Deadline | src/Semaphore_POSIX.cpp:89-101 | the deadline is exactly the time-out away; normalized if and only if the time-out does not reach back across the second |
| HandOff.ClientSeesTheCompletion | src/Command.cpp:2056-2084 | in every interleaving an accepted call returns only after the dispatcher is done with the client's stack, with what the completion wrote; no post is dropped |
| HandOff.NoLostWakeup | src/Semaphore_POSIX.cpp:72-83 | once the dispatcher has let go, the client is not asleep |
| HandOff.EveryCallReturns | src/svcipc_api.cpp:339-364 | every interleaving is finite but for spurious wake-ups, and one that nobody can go on with has the call returned, if and only if the command has met its completion |
| ThreadStart.NoDeadlock | src/Thread.cpp:33-81 | whoever holds the mutex can move, or the thread it waits for can |
| ThreadStart.StartEstablishesRunning | src/Thread.cpp:58-66 | a successful start returns with the thread marked as running; a start that creates a thread finds the last one gone and the semaphore at zero |
| ThreadStart.NeverLeftRunning | src/Thread.cpp:181-206 | `mRunning` is never left true by an ended thread; at most one thread exists; no post is dropped |
| ThreadStart.RunningUntilExit | src/Thread.cpp:192-203 | while the thread loops, `mRunning` is up |
| ThreadStart.LoopLeftIff | src/Thread.cpp:197-198 | a step takes the thread out of its loop if and only if it is the thread's own and either the quit flag is set or `execute` gave false |
| ThreadStart.StopIsObeyed | src/Thread.cpp:197-206 | a thread told to stop while nobody enters `start` ends whatever `execute` gives: each of its own steps brings it one nearer, from its loop it takes five, and then `mRunning` is down; until then it can move, or the caller that holds the mutex can |
| ThreadStart.StartAnswersTruly | src/Thread.cpp:33-81 | `start` answers success if and only if this call created the one new thread, which runs then; busy if and only if it created none and a thread runs; otherwise the error of creating a thread, and nothing runs |
| ThreadStart.OnlyEnteringClears | src/Thread.cpp:42-43 | a request to stop is taken back by a step if and only if it is that of a caller entering `start` |
| ThreadStart.StopSurvivesIffNobodyEnters | src/Thread.cpp:42-43 | a request to stop survives exactly the runs in which nobody enters `start` |
| ThreadStart.StopIsLostIffConcurrentStart | src/svcipc_api.cpp:87-91 | a request to stop the running thread can be lost, in some run from the start, if and only if two clients may be initialising the library at the same time |
| Timers.Timeout.constructor | src/Timeout.cpp:6-19 | every field is as given, and the expiry is one interval from now |
| Timers.Timeout.DoSetInterval | src/Timeout.cpp:33-43 | the interval is the one given; an enabled timer expires that interval from now, a disabled one keeps its expiry; nothing else changes |
| Timers.Timeout.DoSetEnabled | src/Timeout.cpp:55-65 | the timer is enabled or disabled as asked; enabled, it expires one interval from now; disabled, it keeps its expiry; nothing else changes |
| Timers.Timeout.DoSetRepeat | src/Timeout.cpp:46-52 | the timer repeats or not as asked; nothing else changes, the expiry least of all |
| Timers.Timeout.DoToggle | src/DBusTimeoutWrapper.cpp:30-37 | enabled and interval are as asked; an enabled timer expires the new interval after the second of the two clock readings |
| Timers.ExpiryFollowsInterval | src/Timeout.cpp:33-71 | through any sequence of calls, an enabled timer expires its current interval after its last reset |
| Timers.LastCallWins | src/Timeout.cpp:33-71 | after any calls, `enabled`, `interval` and `repeat` are those of the last call that set each, and the last reset is the clock of the last call that resets: an explicit one, one that enables, or a change of the interval of a timer enabled by then |
| Timers.UsedTimersAreInUse | src/Timeout.cpp:33-71 | with non-negative intervals and a monotone clock every timer meets what the wait needs |
| Timers.MinWait | src/Dispatcher.cpp:175-206 | the loop with its early exit computes 0 if an enabled timer has expired, else the least of 3000 and the cast times left |
| Timers.NeverOversleeps | src/Dispatcher.cpp:175-206 | the casts are exact; the wait is 0 if and only if an enabled timer is past its last reset plus its interval, and otherwise ends no later than the first expiry |
| Timers.BlocksForeverIff | src/Dispatcher.cpp:197-203 | the wait is negative if and only if the time left of an enabled timer has bit 31 set |
| Timers.CollectExpired | src/Dispatcher.cpp:234-242 | exactly the enabled and expired timers, each once |
| Timers.HandleExpired | src/Dispatcher.cpp:248-263 | whatever the handlers remove and toggle, a deleted timer is used if and only if a handler removes one that is yet to be handled; otherwise each is handled once, in order |
| Timers.UntouchedTimer | src/Dispatcher.cpp:248-263 | a timer that no handler removes or changes is as before, but that a periodic one was reset when its turn came, to expire one interval after the clock read then |
| Timers.FirstRemovesSecond | src/Dispatcher.cpp:248-263 | an input that fails: of two expired timers the first removes the second |
| Watches.TranslationRoundTrips | src/NSysDep.cpp:46-76 | events translated there and back are the same, but for bits neither side knows |
| Watches.TranslationIsBitwise | src/NSysDep.cpp:46-76 | each D-Bus flag stands for its one poll event, in both directions, and no other bit is ever set |
| Watches.Poll | src/NSysDep.cpp:32-79 | entries keep their order and descriptors; each is asked for POLLIN, POLLOUT, POLLHUP and POLLERR if and only if its flags have READABLE, WRITABLE, HANGUP and ERROR; if any were selected, each comes back with just the flags of the events reported |
| Watches.EventsAreReported | src/NSysDep.cpp:60-76 | the events a watch is handled with are those the kernel reported on its descriptor, without the entries for which it reported none |
| Watches.EnabledExactly | src/Dispatcher.cpp:163-173 | the watches that are polled are the enabled ones, each once |
| Watches.BuildPollList | src/Dispatcher.cpp:163-173 | one entry for each of them, in container order, with its descriptor and flags |
| Watches.ListedIffActive | src/Dispatcher.cpp:274-291 | the active list holds exactly the enabled watches paired with each entry on their descriptor that has events |
| Watches.CollectActive | src/Dispatcher.cpp:274-291 | the nested loops build that list |
| Watches.HandleActive | src/Dispatcher.cpp:299-310 | an active watch is handled if and only if no handler that ran before has removed it |
| Watches.WatchPass | src/Dispatcher.cpp:266-311 | a handler runs only on an enabled watch that is in the live set, with events that an entry on its descriptor has; an enabled watch nobody removes is handled once for each entry with events on its descriptor, with those events, in order |
| ObjectPaths.BusNameToObjPath | src/NUtil.cpp:8-40 | after a leading separator each letter and digit of the name stands unchanged, each dot as a separator, and everything else as an underscore |
| ObjectPaths.ValidIffNoEmptyElement | src/NUtil.cpp:8-40 | the path is a valid object path if and only if no element of the name is empty |
| ObjectPaths.SegmentsRender | src/Connection.cpp:652-663 | every valid path but the root is made of well-formed segments |
| ObjectPaths.BelowNode | src/Connection.cpp:666-676 | the prefix comparison holds if and only if the registered path is strictly below the node |
| ObjectPaths.ListChildren | src/Connection.cpp:650-680 | the loop that collects the children of a node, sorted and made unique |
| ObjectPaths.ListedChildren | src/Connection.cpp:650-688 | the children listed are sorted, free of duplicates, and exactly the next segments of registered paths below the node; an empty name is listed if and only if the node is "/" and a service is registered there |
| ObjectPaths.LessIsLexicographic | src/Connection.cpp:679-680 | the order in which they are sorted is that of a dictionary |
| ObjectPaths.TreeIsFaithful | src/Connection.cpp:650-688 | a node is reached from "/" by following listed children if and only if it is the root or a prefix of a registered path |
| Signals.MakeRule | src/SignalSubscription.cpp:26-61 | the text of the rule, word for word for each kind of subscription, is that of its entries |
| Signals.RuleRoundTrips | src/SignalSubscription.cpp:121-139 | the bus reads a rule back entry by entry if and only if its last value has no apostrophe |
| Signals.RuleIsUnderstood | src/SignalSubscription.cpp:121-139 | with a valid object path, a subscription's rule is understood if and only if its name has no apostrophe |
| Signals.LocalMatchAgreesWithBus | src/SignalSubscription.cpp:73-117 | a message is accepted locally if and only if the bus delivers it for the rule and it has the string arguments expected |
| Signals.DispatchIfMatch | src/SignalSubscription.cpp:154-197 | matching, and the callback called if and only if there is one, with the arguments of the message |
| Signals.ReachedExactly | src/Connection.cpp:542-561 | the subscribers reached are exactly the matching ones with a callback, each once |
| Signals.FilterSignal | src/Connection.cpp:528-561 | reported as handled if and only if it is the local disconnection or some subscription matches |

## Left out

- The libdbus internals, message marshalling, real threads, `poll` and pipes: their results are parameters, and lock, wait, post, read and write are single steps.
- The error-code packing, error names, exception texts, logging, environment variables and slow-callback warnings: they change no state.
- Concurrent `DBUSIPC_initialize` and `DBUSIPC_shutdown`, documented as not thread safe (inc/dbusipc/dbusipc_api.h:21-37), and a second life of the library after a shutdown.
- The two `open` and `get` command classes, and the two overloads of `create`, are one: they differ in how the underlying connection is obtained.
- The contents of requests and replies beyond status and handle, the XML around the list of children, and the two replies through a request context, whose `execute` only reports what building the reply gave.
- Exceptions for lack of memory that escape while a command is being built; the failures inside `execute` and the notifications are modelled.
- The order of addresses in ordered containers of pointers: objects are visited in order of identity.
- The 32-bit width of the connection's reference count, which is a mathematical number here.
- The read of the handle of a pending command that has been deleted, in `cancelPendingByHandle`: the invariant says that there is none.
- The queue's lock, which keeps clients out while the dispatcher executes what is queued: in the model a client may also submit between two executions, so that statements about all runs cover more than can happen; the run in OpenedTooLate needs no such submission.
- The pause after a failed `poll`, which only keeps the loop from spinning.
- The disconnected state of a connection, beyond the branches that look at it, and closing private connections.
- Library.Library.OnCommand: takes as many turns as it is given answers of D-Bus, because whether the queue ever empties is up to the callbacks.
- Library.Library.DispatchPending: takes the connections added during a round as a parameter, because they come from D-Bus.
- Semaphores.Semaphore.WaitTimed: models both waits; the untimed one is the case in which no sleep times out or fails.
- Shutdowns.ShutdownLosesNobody: speaks of runs with no connection opened after the shutdown, because the others can lose a command.
- Guarantees.NoLateNotify: does not speak of the calls of cancelled owner-changed subscriptions, because their `cancel` leaves the call alone.
