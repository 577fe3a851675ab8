/** File descriptors in the event loop: translating events to and from `poll`, and handling the
    watches that became active while the handlers change the set of watches. */
module Watches {

  type Flags = bv16

  // D-Bus watch flags
  const READABLE: Flags := 1
  const WRITABLE: Flags := 2
  const ERROR: Flags := 4
  const HANGUP: Flags := 8
  // poll events
  const POLLIN: Flags := 1
  const POLLOUT: Flags := 4
  const POLLERR: Flags := 8
  const POLLHUP: Flags := 16

  const DBUS_FLAGS: Flags := READABLE | WRITABLE | ERROR | HANGUP
  const POLL_FLAGS: Flags := POLLIN | POLLOUT | POLLERR | POLLHUP

  datatype PollFd = PollFd(fd: int, events: Flags, revents: Flags)

  predicate Has(flags: Flags, flag: Flags) {
    flags & flag != 0
  }

  /** The poll events asked for. */
  function ToPoll(flags: Flags): Flags {
    (if Has(flags, READABLE) then POLLIN else 0) | (if Has(flags, WRITABLE) then POLLOUT else 0)
    | (if Has(flags, HANGUP) then POLLHUP else 0) | (if Has(flags, ERROR) then POLLERR else 0)
  }

  /** The D-Bus flags reported back. */
  function FromPoll(events: Flags): Flags {
    (if Has(events, POLLIN) then READABLE else 0) | (if Has(events, POLLOUT) then WRITABLE else 0)
    | (if Has(events, POLLHUP) then HANGUP else 0) | (if Has(events, POLLERR) then ERROR else 0)
  }

  /** Going there and back loses nothing but bits neither side knows. */
  lemma TranslationRoundTrips(flags: Flags)
    ensures FromPoll(ToPoll(flags)) == flags & DBUS_FLAGS
    ensures ToPoll(FromPoll(flags)) == flags & POLL_FLAGS
  {
  }

  /** A reported event is zero exactly when the kernel reported none of the four. */
  lemma NothingReported(events: Flags)
    ensures FromPoll(events) == 0 <==> events & POLL_FLAGS == 0
  {
  }

  /** Watch flags and poll events that say the same. */
  predicate SameEvents(flags: Flags, events: Flags) {
    && (Has(flags, READABLE) <==> Has(events, POLLIN))
    && (Has(flags, WRITABLE) <==> Has(events, POLLOUT))
    && (Has(flags, HANGUP) <==> Has(events, POLLHUP))
    && (Has(flags, ERROR) <==> Has(events, POLLERR))
  }

  /** Bit by bit, in each direction, and no other bit is set. */
  lemma TranslationIsBitwise(flags: Flags)
    ensures SameEvents(flags, ToPoll(flags)) && ToPoll(flags) & !POLL_FLAGS == 0
    ensures SameEvents(FromPoll(flags), flags) && FromPoll(flags) & !DBUS_FLAGS == 0
  {
  }

  /** `DBUSIPC_poll`, where the kernel answers `nSelected` and the events `reported`: the entries
      keep their order and descriptors; the events come back translated, if any were reported. */
  method Poll(fds: seq<PollFd>, nSelected: int, reported: seq<Flags>) returns (asked: seq<PollFd>, answered: seq<PollFd>)
    requires |reported| == |fds|
    ensures |asked| == |fds| && forall i :: 0 <= i < |fds| ==> asked[i] == PollFd(fds[i].fd, ToPoll(fds[i].events), 0)
    ensures nSelected <= 0 ==> answered == fds
    ensures nSelected > 0 ==>
              |answered| == |fds| &&
              forall i :: 0 <= i < |fds| ==> answered[i] == PollFd(fds[i].fd, ToPoll(fds[i].events), FromPoll(reported[i]))
    ensures forall i :: 0 <= i < |fds| ==>
              SameEvents(fds[i].events, asked[i].events) && asked[i].events & !POLL_FLAGS == 0 && asked[i].revents == 0
    ensures nSelected > 0 ==> forall i :: 0 <= i < |fds| ==>
              && SameEvents(answered[i].revents, reported[i]) && answered[i].revents & !DBUS_FLAGS == 0
              && answered[i].fd == fds[i].fd && answered[i].events == asked[i].events
  {
    asked := [];
    for i := 0 to |fds|
      invariant |asked| == i && forall k :: 0 <= k < i ==> asked[k] == PollFd(fds[k].fd, ToPoll(fds[k].events), 0)
    {
      var flags := fds[i].events;
      var events: Flags := 0;
      if Has(flags, READABLE) { events := events | POLLIN; }
      if Has(flags, WRITABLE) { events := events | POLLOUT; }
      if Has(flags, HANGUP) { events := events | POLLHUP; }
      if Has(flags, ERROR) { events := events | POLLERR; }
      asked := asked + [PollFd(fds[i].fd, events, 0)];
    }
    answered := fds;
    if 0 < nSelected {
      answered := [];
      for i := 0 to |asked|
        invariant |answered| == i
        invariant forall k :: 0 <= k < i ==> answered[k] == PollFd(asked[k].fd, asked[k].events, FromPoll(reported[k]))
      {
        var flags := reported[i];
        var events: Flags := 0;
        if Has(flags, POLLIN) { events := events | READABLE; }
        if Has(flags, POLLOUT) { events := events | WRITABLE; }
        if Has(flags, POLLHUP) { events := events | HANGUP; }
        if Has(flags, POLLERR) { events := events | ERROR; }
        answered := answered + [PollFd(asked[i].fd, asked[i].events, events)];
      }
    }
    forall i | 0 <= i < |fds|
      ensures SameEvents(fds[i].events, ToPoll(fds[i].events)) && ToPoll(fds[i].events) & !POLL_FLAGS == 0
      ensures SameEvents(FromPoll(reported[i]), reported[i]) && FromPoll(reported[i]) & !DBUS_FLAGS == 0
    {
      TranslationIsBitwise(fds[i].events);
      TranslationIsBitwise(reported[i]);
    }
  }

  // ----- which watches are active -----

  type Id = nat

  datatype Watch = Watch(fd: int, flags: Flags, enabled: bool)

  /** A watch to handle, and the entry of the poll list whose events it is handled with. */
  datatype Active = Active(watch: Id, entry: nat)

  predicate IsActive(polled: seq<PollFd>, watches: map<Id, Watch>, a: Active) {
    && a.entry < |polled| && a.watch in watches
    && watches[a.watch].fd == polled[a.entry].fd && watches[a.watch].enabled && polled[a.entry].revents != 0
  }

  /** The enabled watches, in container order. */
  function EnabledIn(order: seq<Id>, watches: map<Id, Watch>): seq<Id>
    requires forall k :: 0 <= k < |order| ==> order[k] in watches
  {
    if order == [] then []
    else
      var w := order[|order| - 1];
      EnabledIn(order[..|order| - 1], watches) + if watches[w].enabled then [w] else []
  }

  /** Each enabled watch once, and no other. */
  lemma {:induction false} EnabledExactly(order: seq<Id>, watches: map<Id, Watch>)
    requires forall k :: 0 <= k < |order| ==> order[k] in watches
    requires forall j, k :: 0 <= j < k < |order| ==> order[j] != order[k]
    ensures forall w :: w in EnabledIn(order, watches) <==> w in order && w in watches && watches[w].enabled
    ensures forall j, k :: 0 <= j < k < |EnabledIn(order, watches)| ==> EnabledIn(order, watches)[j] != EnabledIn(order, watches)[k]
  {
    if order != [] {
      var n := |order| - 1;
      EnabledExactly(order[..n], watches);
      assert order == order[..n] + [order[n]];
      assert order[n] !in order[..n];
    }
  }

  /** The entries of the poll list: one for each enabled watch, in container order. */
  method BuildPollList(order: seq<Id>, watches: map<Id, Watch>) returns (fds: seq<PollFd>)
    requires forall k :: 0 <= k < |order| ==> order[k] in watches
    ensures |fds| == |EnabledIn(order, watches)|
    ensures forall k :: 0 <= k < |fds| ==>
              var w := EnabledIn(order, watches)[k]; w in watches && fds[k] == PollFd(watches[w].fd, watches[w].flags, 0)
  {
    fds := [];
    for i := 0 to |order|
      invariant |fds| == |EnabledIn(order[..i], watches)|
      invariant forall k :: 0 <= k < |fds| ==>
                  var w := EnabledIn(order[..i], watches)[k]; w in watches && fds[k] == PollFd(watches[w].fd, watches[w].flags, 0)
    {
      if watches[order[i]].enabled {
        fds := fds + [PollFd(watches[order[i]].fd, watches[order[i]].flags, 0)];
      }
      assert order[..i + 1][..i] == order[..i];
    }
    assert order[..|order|] == order;
  }

  function OnEntry(polled: seq<PollFd>, e: nat, order: seq<Id>, watches: map<Id, Watch>): seq<Active> {
    if order == [] then []
    else
      var w := order[|order| - 1];
      OnEntry(polled, e, order[..|order| - 1], watches) + if IsActive(polled, watches, Active(w, e)) then [Active(w, e)] else []
  }

  function ActiveUpTo(polled: seq<PollFd>, e: nat, order: seq<Id>, watches: map<Id, Watch>): seq<Active> {
    if e == 0 then [] else ActiveUpTo(polled, e - 1, order, watches) + OnEntry(polled, e - 1, order, watches)
  }

  /** The list holds exactly the pairs of an enabled watch and an entry on its descriptor that has
      events. */
  lemma {:induction false} OnEntryIsActive(polled: seq<PollFd>, e: nat, order: seq<Id>, watches: map<Id, Watch>, a: Active)
    ensures a in OnEntry(polled, e, order, watches) <==> a.entry == e && a.watch in order && IsActive(polled, watches, a)
  {
    if order != [] {
      var n := |order| - 1;
      OnEntryIsActive(polled, e, order[..n], watches, a);
      assert order == order[..n] + [order[n]];
    }
  }

  lemma {:induction false} ListedIffActive(polled: seq<PollFd>, e: nat, order: seq<Id>, watches: map<Id, Watch>, a: Active)
    requires forall w :: w in order <==> w in watches
    ensures a in ActiveUpTo(polled, e, order, watches) <==> a.entry < e && IsActive(polled, watches, a)
  {
    hide OnEntry;
    if e > 0 {
      ListedIffActive(polled, e - 1, order, watches, a);
      OnEntryIsActive(polled, e - 1, order, watches, a);
      assert a in ActiveUpTo(polled, e, order, watches)
             <==> a in ActiveUpTo(polled, e - 1, order, watches) || a in OnEntry(polled, e - 1, order, watches);
    }
  }

  /** For each entry of the poll list, the enabled watches on its descriptor, if it has events. */
  method CollectActive(polled: seq<PollFd>, order: seq<Id>, watches: map<Id, Watch>) returns (active: seq<Active>)
    requires forall w :: w in order <==> w in watches
    ensures active == ActiveUpTo(polled, |polled|, order, watches)
  {
    active := [];
    for e := 0 to |polled|
      invariant active == ActiveUpTo(polled, e, order, watches)
    {
      for i := 0 to |order|
        invariant active == ActiveUpTo(polled, e, order, watches) + OnEntry(polled, e, order[..i], watches)
      {
        var w := order[i];
        assert w in order;
        if watches[w].fd == polled[e].fd {
          if watches[w].enabled && polled[e].revents != 0 {
            active := active + [Active(w, e)];
          }
        }
        assert order[..i + 1][..i] == order[..i];
      }
      assert order[..|order|] == order;
    }
  }

  // ----- handling them -----

  /** A handler that ran: the watch, the events it was given, and the watches there were then. */
  datatype Handling = Handling(watch: Id, events: Flags, live: set<Id>)

  /** Whether the watch of `active[k]` still exists when its turn comes: no handler that ran before
      has removed it. `removes[j]` are the watches the handler of `active[j]` removes. */
  ghost predicate Survives(active: seq<Active>, live: set<Id>, removes: seq<set<Id>>, k: nat)
    requires k < |active| && |removes| == |active|
    decreases k
  {
    active[k].watch in live && forall j: nat :: j < k && Survives(active, live, removes, j) ==> active[k].watch !in removes[j]
  }

  /** Handle the active watches, looking each one up in the live set first. */
  method HandleActive(active: seq<Active>, polled: seq<PollFd>, live: set<Id>, removes: seq<set<Id>>)
    returns (handled: seq<Handling>, left: set<Id>, ghost ran: seq<bool>)
    requires |removes| == |active| && forall k :: 0 <= k < |active| ==> active[k].entry < |polled|
    ensures |ran| == |active| && forall k :: 0 <= k < |active| ==> (ran[k] <==> Survives(active, live, removes, k))
    ensures handled == Trace(active, polled, live, removes, |active|)
  {
    handled, left, ran := [], live, [];
    for k := 0 to |active|
      invariant |ran| == k && forall j :: 0 <= j < k ==> (ran[j] <==> Survives(active, live, removes, j))
      invariant handled == Trace(active, polled, live, removes, k)
      invariant left == LiveAt(active, live, removes, k)
    {
      LiveIffSurvives(active, live, removes, k);
      if active[k].watch in left {
        handled := handled + [Handling(active[k].watch, polled[active[k].entry].revents, left)];
        left := left - removes[k];
        ran := ran + [true];
      } else {
        ran := ran + [false];
      }
    }
  }

  /** The live set when the turn of `active[k]` comes. */
  ghost function LiveAt(active: seq<Active>, live: set<Id>, removes: seq<set<Id>>, k: nat): set<Id>
    requires k <= |active| && |removes| == |active|
  {
    if k == 0 then live
    else
      var before := LiveAt(active, live, removes, k - 1);
      if active[k - 1].watch in before then before - removes[k - 1] else before
  }

  ghost function Trace(active: seq<Active>, polled: seq<PollFd>, live: set<Id>, removes: seq<set<Id>>, k: nat): seq<Handling>
    requires k <= |active| && |removes| == |active|
    requires forall j :: 0 <= j < |active| ==> active[j].entry < |polled|
  {
    if k == 0 then []
    else
      Trace(active, polled, live, removes, k - 1)
      + if active[k - 1].watch in LiveAt(active, live, removes, k - 1)
        then [Handling(active[k - 1].watch, polled[active[k - 1].entry].revents, LiveAt(active, live, removes, k - 1))]
        else []
  }

  lemma {:induction false} LiveAtKeeps(active: seq<Active>, live: set<Id>, removes: seq<set<Id>>, k: nat, w: Id)
    requires k <= |active| && |removes| == |active|
    ensures w in LiveAt(active, live, removes, k) <==>
              w in live && forall j: nat :: j < k && Survives(active, live, removes, j) ==> w !in removes[j]
    decreases k, 0
  {
    if k > 0 {
      LiveAtKeeps(active, live, removes, k - 1, w);
      LiveIffSurvives(active, live, removes, k - 1);
    }
  }

  lemma LiveIffSurvives(active: seq<Active>, live: set<Id>, removes: seq<set<Id>>, k: nat)
    requires k < |active| && |removes| == |active|
    ensures active[k].watch in LiveAt(active, live, removes, k) <==> Survives(active, live, removes, k)
    decreases k, 1
  {
    LiveAtKeeps(active, live, removes, k, active[k].watch);
  }

  // ----- a whole pass -----

  /** The events a watch was handled with, in order. */
  function EventsGiven(handled: seq<Handling>, w: Id): seq<Flags> {
    if handled == [] then []
    else
      var last := handled[|handled| - 1];
      EventsGiven(handled[..|handled| - 1], w) + if last.watch == w then [last.events] else []
  }

  /** The non-zero events reported for a descriptor, in the order of the poll list. */
  function EventsOn(polled: seq<PollFd>, fd: int): seq<Flags> {
    if polled == [] then []
    else
      var last := polled[|polled| - 1];
      EventsOn(polled[..|polled| - 1], fd) + if last.fd == fd && last.revents != 0 then [last.revents] else []
  }

  function EventsDue(active: seq<Active>, polled: seq<PollFd>, w: Id): seq<Flags>
    requires forall k :: 0 <= k < |active| ==> active[k].entry < |polled|
  {
    if active == [] then []
    else
      var last := active[|active| - 1];
      EventsDue(active[..|active| - 1], polled, w) + if last.watch == w then [polled[last.entry].revents] else []
  }

  lemma {:induction false} DueAppends(a: seq<Active>, b: seq<Active>, polled: seq<PollFd>, w: Id)
    requires forall k :: 0 <= k < |a| ==> a[k].entry < |polled|
    requires forall k :: 0 <= k < |b| ==> b[k].entry < |polled|
    ensures forall k :: 0 <= k < |a + b| ==> (a + b)[k].entry < |polled|
    ensures EventsDue(a + b, polled, w) == EventsDue(a, polled, w) + EventsDue(b, polled, w)
  {
    if b == [] {
      assert a + b == a;
    } else {
      assert (a + b)[..|a + b| - 1] == a + b[..|b| - 1];
      DueAppends(a, b[..|b| - 1], polled, w);
    }
  }

  lemma DueAppendsOne(a: seq<Active>, x: Active, polled: seq<PollFd>, w: Id)
    requires (forall k :: 0 <= k < |a| ==> a[k].entry < |polled|) && x.entry < |polled|
    ensures EventsDue(a + [x], polled, w) == EventsDue(a, polled, w) + if x.watch == w then [polled[x.entry].revents] else []
  {
    assert (a + [x])[..|a|] == a;
  }

  lemma {:induction false} OnEntryEntries(polled: seq<PollFd>, e: nat, order: seq<Id>, watches: map<Id, Watch>)
    ensures forall k :: 0 <= k < |OnEntry(polled, e, order, watches)| ==> OnEntry(polled, e, order, watches)[k].entry == e
  {
    if order != [] {
      OnEntryEntries(polled, e, order[..|order| - 1], watches);
    }
  }

  lemma {:induction false} DueOnEntry(polled: seq<PollFd>, e: nat, order: seq<Id>, watches: map<Id, Watch>, w: Id)
    requires e < |polled| && forall j, k :: 0 <= j < k < |order| ==> order[j] != order[k]
    requires forall k :: 0 <= k < |OnEntry(polled, e, order, watches)| ==> OnEntry(polled, e, order, watches)[k].entry == e
    ensures EventsDue(OnEntry(polled, e, order, watches), polled, w)
            == if w in order && IsActive(polled, watches, Active(w, e)) then [polled[e].revents] else []
  {
    if order != [] {
      var n := |order| - 1;
      var last := Active(order[n], e);
      var rest := OnEntry(polled, e, order[..n], watches);
      assert OnEntry(polled, e, order, watches) == rest + if IsActive(polled, watches, last) then [last] else [];
      OnEntryEntries(polled, e, order[..n], watches);
      DueOnEntry(polled, e, order[..n], watches, w);
      hide OnEntry, EventsDue, IsActive;
      LastIsNew(order, w);
      if IsActive(polled, watches, last) {
        DueAppendsOne(rest, last, polled, w);
      } else {
        assert rest + [] == rest;
      }
    }
  }

  lemma LastIsNew(order: seq<Id>, w: Id)
    requires order != [] && forall j, k :: 0 <= j < k < |order| ==> order[j] != order[k]
    ensures var n := |order| - 1; order[n] !in order[..n] && (w in order <==> w in order[..n] || w == order[n])
  {
    var n := |order| - 1;
    assert order == order[..n] + [order[n]];
  }

  lemma {:induction false} EntriesBounded(polled: seq<PollFd>, e: nat, order: seq<Id>, watches: map<Id, Watch>)
    requires e <= |polled|
    ensures forall k :: 0 <= k < |ActiveUpTo(polled, e, order, watches)| ==> ActiveUpTo(polled, e, order, watches)[k].entry < |polled|
  {
    if e > 0 {
      EntriesBounded(polled, e - 1, order, watches);
      OnEntryEntries(polled, e - 1, order, watches);
    }
  }

  lemma OneMorePolled(polled: seq<PollFd>, e: nat, fd: int)
    requires e < |polled|
    ensures EventsOn(polled[..e + 1], fd)
            == EventsOn(polled[..e], fd) + if polled[e].fd == fd && polled[e].revents != 0 then [polled[e].revents] else []
  {
    assert polled[..e + 1][..e] == polled[..e];
  }

  lemma DueOneMore(polled: seq<PollFd>, e: nat, order: seq<Id>, watches: map<Id, Watch>, w: Id, before: seq<Active>, all: seq<Active>)
    requires e < |polled| && forall j, k :: 0 <= j < k < |order| ==> order[j] != order[k]
    requires w in order && w in watches && watches[w].enabled
    requires before == ActiveUpTo(polled, e, order, watches) && all == ActiveUpTo(polled, e + 1, order, watches)
    requires (forall k :: 0 <= k < |before| ==> before[k].entry < |polled|) && forall k :: 0 <= k < |all| ==> all[k].entry < |polled|
    ensures EventsDue(all, polled, w)
            == EventsDue(before, polled, w)
               + if polled[e].fd == watches[w].fd && polled[e].revents != 0 then [polled[e].revents] else []
  {
    hide OnEntry, EventsDue;
    var here := OnEntry(polled, e, order, watches);
    assert all == before + here;
    hide ActiveUpTo;
    OnEntryEntries(polled, e, order, watches);
    DueOnEntry(polled, e, order, watches, w);
    DueAppends(before, here, polled, w);
  }

  lemma NothingDue(polled: seq<PollFd>, order: seq<Id>, watches: map<Id, Watch>, w: Id)
    requires w in watches
    ensures ActiveUpTo(polled, 0, order, watches) == []
    ensures EventsDue([], polled, w) == [] && EventsOn(polled[..0], watches[w].fd) == []
  {
  }

  lemma {:induction false} DueIsAll(polled: seq<PollFd>, e: nat, order: seq<Id>, watches: map<Id, Watch>, w: Id)
    requires e <= |polled| && forall j, k :: 0 <= j < k < |order| ==> order[j] != order[k]
    requires w in order && w in watches && watches[w].enabled
    requires forall k :: 0 <= k < |ActiveUpTo(polled, e, order, watches)| ==> ActiveUpTo(polled, e, order, watches)[k].entry < |polled|
    ensures EventsDue(ActiveUpTo(polled, e, order, watches), polled, w) == EventsOn(polled[..e], watches[w].fd)
  {
    hide OnEntry, EventsDue, EventsOn, ActiveUpTo, IsActive;
    if e == 0 {
      NothingDue(polled, order, watches, w);
    } else {
      EntriesBounded(polled, e - 1, order, watches);
      DueIsAll(polled, e - 1, order, watches, w);
      DueOneMore(polled, e - 1, order, watches, w, ActiveUpTo(polled, e - 1, order, watches), ActiveUpTo(polled, e, order, watches));
      OneMorePolled(polled, e - 1, watches[w].fd);
    }
  }

  lemma GivenAppendsOne(a: seq<Handling>, h: Handling, w: Id)
    ensures EventsGiven(a + [h], w) == EventsGiven(a, w) + if h.watch == w then [h.events] else []
  {
    assert (a + [h])[..|a|] == a;
  }

  lemma TurnTaken(active: seq<Active>, polled: seq<PollFd>, live: set<Id>, removes: seq<set<Id>>, k: nat)
    requires 0 < k <= |active| && |removes| == |active|
    requires forall j :: 0 <= j < |active| ==> active[j].entry < |polled|
    ensures var before, here, a := Trace(active, polled, live, removes, k - 1), LiveAt(active, live, removes, k - 1), active[k - 1];
            && Trace(active, polled, live, removes, k)
               == before + (if a.watch in here then [Handling(a.watch, polled[a.entry].revents, here)] else [])
            && LiveAt(active, live, removes, k) == if a.watch in here then here - removes[k - 1] else here
  {
  }

  lemma {:induction false} GivenIsDue(active: seq<Active>, polled: seq<PollFd>, live: set<Id>, removes: seq<set<Id>>, k: nat, w: Id)
    requires k <= |active| && |removes| == |active| && w in live
    requires forall j :: 0 <= j < |active| ==> active[j].entry < |polled| && w !in removes[j]
    ensures EventsGiven(Trace(active, polled, live, removes, k), w) == EventsDue(active[..k], polled, w)
    ensures w in LiveAt(active, live, removes, k)
  {
    if k > 0 {
      GivenIsDue(active, polled, live, removes, k - 1, w);
      TurnTaken(active, polled, live, removes, k);
      hide Trace, LiveAt, EventsGiven, EventsDue;
      var before := Trace(active, polled, live, removes, k - 1);
      var here := LiveAt(active, live, removes, k - 1);
      var a := active[k - 1];
      if a.watch in here {
        GivenAppendsOne(before, Handling(a.watch, polled[a.entry].revents, here), w);
      } else {
        assert before + [] == before;
      }
      DueAppendsOne(active[..k - 1], a, polled, w);
      assert active[..k] == active[..k - 1] + [a];
    }
  }

  lemma {:induction false} HandledWereActive(active: seq<Active>, polled: seq<PollFd>, live: set<Id>, removes: seq<set<Id>>, k: nat)
    requires k <= |active| && |removes| == |active|
    requires forall j :: 0 <= j < |active| ==> active[j].entry < |polled|
    ensures forall h :: h in Trace(active, polled, live, removes, k) ==>
              exists a :: a in active && a.watch == h.watch && polled[a.entry].revents == h.events
  {
    if k > 0 {
      HandledWereActive(active, polled, live, removes, k - 1);
      assert active[k - 1] in active;
    }
  }

  /** Only enabled watches are handled, with what was reported on their descriptor. */
  lemma HandledAreEnabled(polled: seq<PollFd>, order: seq<Id>, watches: map<Id, Watch>, active: seq<Active>, removes: seq<set<Id>>)
    requires forall w :: w in order <==> w in watches
    requires active == ActiveUpTo(polled, |polled|, order, watches) && |removes| == |active|
    requires forall j :: 0 <= j < |active| ==> active[j].entry < |polled|
    ensures forall h :: h in Trace(active, polled, watches.Keys, removes, |active|) ==>
              h.watch in watches && IsHandled(polled, watches, h)
  {
    HandledWereActive(active, polled, watches.Keys, removes, |active|);
    forall h | h in Trace(active, polled, watches.Keys, removes, |active|)
      ensures h.watch in watches && IsHandled(polled, watches, h)
    {
      var a :| a in active && a.watch == h.watch && polled[a.entry].revents == h.events;
      ListedIffActive(polled, |polled|, order, watches, a);
    }
  }

  ghost predicate IsHandled(polled: seq<PollFd>, watches: map<Id, Watch>, h: Handling)
    requires h.watch in watches
  {
    && watches[h.watch].enabled && h.events != 0
    && exists e :: 0 <= e < |polled| && polled[e].fd == watches[h.watch].fd && polled[e].revents == h.events
  }

  lemma {:induction false} HandledWereLive(active: seq<Active>, polled: seq<PollFd>, live: set<Id>, removes: seq<set<Id>>, k: nat)
    requires k <= |active| && |removes| == |active|
    requires forall j :: 0 <= j < |active| ==> active[j].entry < |polled|
    ensures LiveAt(active, live, removes, k) <= live
    ensures forall h :: h in Trace(active, polled, live, removes, k) ==> h.watch in h.live && h.live <= live
  {
    if k > 0 {
      HandledWereLive(active, polled, live, removes, k - 1);
    }
  }

  /** What the kernel reported for a descriptor, translated, in the order of the poll list; entries
      for which it reported none of the four events are left out. */
  function Reported(fds: seq<PollFd>, reported: seq<Flags>, fd: int): seq<Flags>
    requires |reported| == |fds|
  {
    if fds == [] then []
    else
      var n := |fds| - 1;
      Reported(fds[..n], reported[..n], fd)
      + if fds[n].fd == fd && reported[n] & POLL_FLAGS != 0 then [FromPoll(reported[n])] else []
  }

  /** The events a watch is handled with are those the kernel reported on its descriptor. */
  lemma {:induction false} EventsAreReported(fds: seq<PollFd>, polled: seq<PollFd>, reported: seq<Flags>, fd: int)
    requires |fds| == |polled| == |reported|
    requires forall i :: 0 <= i < |fds| ==> polled[i].fd == fds[i].fd && polled[i].revents == FromPoll(reported[i])
    ensures EventsOn(polled, fd) == Reported(fds, reported, fd)
  {
    if fds != [] {
      var n := |fds| - 1;
      EventsAreReported(fds[..n], polled[..n], reported[..n], fd);
      NothingReported(reported[n]);
    }
  }

  /** The watch pass after a poll that selected something: whatever the handlers remove, a handler
      runs only on a watch that is in the live set at that moment and is enabled, with events that were
      reported on its descriptor; and an enabled watch that nobody
      removes is handled once for each entry of the poll list that shares its descriptor and has
      events, in order, with the events of that entry. */
  method WatchPass(polled: seq<PollFd>, order: seq<Id>, watches: map<Id, Watch>, removes: Active -> set<Id>)
    returns (handled: seq<Handling>, left: set<Id>)
    requires forall w :: w in order <==> w in watches
    requires forall j, k :: 0 <= j < k < |order| ==> order[j] != order[k]
    ensures forall h :: h in handled ==> h.watch in h.live && h.live <= watches.Keys
    ensures forall h :: h in handled ==> h.watch in watches && IsHandled(polled, watches, h)
    ensures forall w :: w in watches && watches[w].enabled && (forall a :: w !in removes(a)) ==>
              EventsGiven(handled, w) == EventsOn(polled, watches[w].fd)
  {
    var active := CollectActive(polled, order, watches);
    EntriesBounded(polled, |polled|, order, watches);
    var removed := seq(|active|, k requires 0 <= k < |active| => removes(active[k]));
    ghost var ran;
    handled, left, ran := HandleActive(active, polled, watches.Keys, removed);
    HandledWereLive(active, polled, watches.Keys, removed, |active|);
    HandledAreEnabled(polled, order, watches, active, removed);
    forall w | w in watches && watches[w].enabled && forall a :: w !in removes(a)
      ensures EventsGiven(handled, w) == EventsOn(polled, watches[w].fd)
    {
      GivenIsDue(active, polled, watches.Keys, removed, |active|, w);
      DueIsAll(polled, |polled|, order, watches, w);
      assert active[..|active|] == active && polled[..|polled|] == polled;
    }
  }
}
