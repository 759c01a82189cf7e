/** When callbacks run: no sooner than their deadlines, and not later than the check of the
    timers that follows (the-great-approximator/server_events.cpp:12-18), with the deadlines
    that the connections and puts of a run have set. */
module Deadlines {
  import opened Greedy
  import opened Events
  import opened Server
  import opened ServerRuns
  import opened Totals
  import opened Players

  // ----- Checking the timers

  /** The events left are those not yet due, in order; all others have been taken away. */
  lemma {:induction false} TimersTakeDue(s: Server, now: int)
    requires Events.Sorted(s.events)
    ensures var left := RunTimers(s, now).events; var k := |s.events| - |left|;
            && 0 <= k && left == s.events[k..]
            && (forall i :: 0 <= i < k ==> s.events[i].due <= now)
            && (forall i :: 0 <= i < |left| ==> left[i].due > now)
    decreases |s.events|
  {
    if Due(s, now) {
      TimersTakeDue(FireFirst(s), now);
      var left := RunTimers(s, now).events;
      var k := |s.events| - |left|;
      forall i | 0 <= i < k
        ensures s.events[i].due <= now
      {
        assert i > 0 ==> s.events[i] == s.events[1..][i - 1];
      }
      assert left == s.events[1..][k - 1..] == s.events[k..];
    }
  }

  /** Before the first deadline, checking the timers does nothing at all. */
  lemma NothingDue(s: Server, now: int)
    requires s.events == [] || s.events[0].due > now
    ensures RunTimers(s, now) == s
  {
  }

  // ----- The order of the queue

  lemma FireSorted(s: Server)
    requires Events.Sorted(s.events) && s.events != []
    ensures Events.Sorted(FireFirst(s).events)
  {
  }

  lemma {:induction false} TimersSorted(s: Server, now: int)
    requires Events.Sorted(s.events)
    ensures Events.Sorted(RunTimers(s, now).events)
    decreases |s.events|
  {
    if Due(s, now) {
      FireSorted(s);
      TimersSorted(FireFirst(s), now);
    }
  }

  lemma MessageSorted(s: Server, fd: int, request: Request, now: int)
    requires Possible(s, Message(fd, request)) && Events.Sorted(s.events)
    ensures Events.Sorted(Receive(s, fd, request, now).events)
  {
    var p := s.players[fd];
    if Ignored(p, request) {
      IgnoredIs(s, fd, request, now);
    } else if request.Hello? {
      HelloReceived(s, fd, request.id, request.line, now);
    } else if p.canPut && !OutOfRange(s.K, request.point, request.value) {
      AcceptedPut(s, fd, request.point, request.value, now);
      AcceptedPlayer(AdvancedServer(s, fd, request.point, request.value, now), fd);
      Events.InsertSorted(s.events, StateEvent(Advanced(p, request.point, request.value), fd, now));
    } else {
      RefusedPut(s, fd, request.point, request.value, now);
      Events.InsertSorted(s.events, BadEvent(p, fd, request.point, request.value, now));
    }
  }

  lemma StepSorted(s: Server, step: Step, now: int)
    requires Possible(s, step) && Events.Sorted(s.events)
    ensures Events.Sorted(After(s, step, now).events)
  {
    match step
    case Connect(who) => Events.InsertSorted(s.events, Timed(now + HELLO_WAIT_TIME * SECOND, HelloTimeout(who)));
    case Message(fd, request) => MessageSorted(s, fd, request, now);
    case Tick => TimersSorted(s, now);
    case _ =>
  }

  lemma {:induction false} RunSorted(servers: seq<Server>, steps: seq<Step>, nows: seq<int>, n: nat)
    requires IsServerRun(servers, steps, nows) && n <= |steps|
    ensures Events.Sorted(servers[n].events)
  {
    if n > 0 {
      RunSorted(servers, steps, nows, n - 1);
      assert Possible(servers[n - 1], steps[n - 1]);
      StepSorted(servers[n - 1], steps[n - 1], nows[n - 1]);
    }
  }

  // ----- Where the events come from

  /** The step of the run that set the deadline of an event: the connection 3 s before, or a
      put, refused 1 s before, accepted as many seconds before as the id of the player has
      lower-case letters. */
  ghost predicate Sets(s: Server, step: Step, now: int, e: Timed<Event>) {
    match e.event
    case HelloTimeout(who) => step == Connect(who) && e.due == now + 3_000_000_000
    case BadPutReply(who, id, point, value) =>
      && step == Message(who.fd, PutValue(point, value)) && PutBy(s, who, id)
      && !Legal(Put(point, value), s.K + 1) && e.due == now + 1_000_000_000
    case StateReply(who, id, values) =>
      && step.Message? && step.fd == who.fd && step.request.PutValue? && PutBy(s, who, id)
      && var p, put := s.players[who.fd], Put(step.request.point, step.request.value);
      && p.canPut && Legal(put, s.K + 1) && |p.approximations| == s.K + 1
      && values == p.approximations[put.point := p.approximations[put.point] + put.value]
      && e.due == now + p.delay * 1_000_000_000
  }

  /** The known player behind an identity and id. */
  predicate PutBy(s: Server, who: Identity, id: string) {
    who.fd in s.players && s.players[who.fd].Who(who.fd) == who && s.players[who.fd].isKnown
    && s.players[who.fd].id == id
  }

  lemma StateSet(s: Server, fd: int, point: int, value: int, now: int)
    requires fd in s.players && s.players[fd].isKnown && s.players[fd].canPut
    requires |s.players[fd].approximations| == s.K + 1 && Legal(Put(point, value), s.K + 1)
    ensures Sets(s, Message(fd, PutValue(point, value)), now,
                 StateEvent(Advanced(s.players[fd], point, value), fd, now))
  {
  }

  lemma BadPutSet(s: Server, fd: int, point: int, value: int, now: int)
    requires fd in s.players && s.players[fd].isKnown && !Legal(Put(point, value), s.K + 1)
    ensures Sets(s, Message(fd, PutValue(point, value)), now, BadEvent(s.players[fd], fd, point, value, now))
  {
  }

  lemma PutSets(s: Server, fd: int, point: int, value: int, now: int, e: Timed<Event>)
    requires fd in s.players && Wf(s) && s.players[fd].isKnown
    requires e in Receive(s, fd, PutValue(point, value), now).events
    ensures e in s.events || Sets(s, Message(fd, PutValue(point, value)), now, e)
  {
    var p := s.players[fd];
    ToleranceVanishes(s.K, point, value);
    if p.canPut && !OutOfRange(s.K, point, value) {
      AcceptedPut(s, fd, point, value, now);
      AcceptedPlayer(AdvancedServer(s, fd, point, value, now), fd);
      InsertMembers(s.events, StateEvent(Advanced(p, point, value), fd, now));
      StateSet(s, fd, point, value, now);
    } else {
      RefusedPut(s, fd, point, value, now);
      if OutOfRange(s.K, point, value) {
        InsertMembers(s.events, BadEvent(p, fd, point, value, now));
        BadPutSet(s, fd, point, value, now);
      }
    }
  }

  lemma {:induction false} TimersSetNothing(s: Server, now: int)
    ensures forall e :: e in RunTimers(s, now).events ==> e in s.events
    decreases |s.events|
  {
    if Due(s, now) {
      TimersSetNothing(FireFirst(s), now);
    }
  }

  lemma StepSets(s: Server, step: Step, now: int, e: Timed<Event>)
    requires Possible(s, step) && e in After(s, step, now).events
    ensures e in s.events || Sets(s, step, now, e)
  {
    match step
    case Connect(who) => InsertMembers(s.events, Timed(now + HELLO_WAIT_TIME * SECOND, HelloTimeout(who)));
    case Message(fd, request) =>
      if Ignored(s.players[fd], request) {
        IgnoredIs(s, fd, request, now);
      } else if request.Hello? {
        HelloReceived(s, fd, request.id, request.line, now);
      } else {
        PutSets(s, fd, request.point, request.value, now, e);
      }
    case Tick => TimersSetNothing(s, now);
    case _ =>
  }

  lemma {:induction false} EventsAreSet(servers: seq<Server>, steps: seq<Step>, nows: seq<int>, n: nat,
                                        e: Timed<Event>) returns (j: nat)
    requires IsServerRun(servers, steps, nows) && n <= |steps| && e in servers[n].events
    ensures j < n && Sets(servers[j], steps[j], nows[j], e)
  {
    assert n > 0;
    assert Possible(servers[n - 1], steps[n - 1]);
    StepSets(servers[n - 1], steps[n - 1], nows[n - 1], e);
    if e in servers[n - 1].events {
      j := EventsAreSet(servers, steps, nows, n - 1, e);
    } else {
      j := n - 1;
    }
  }

  // ----- What checking the timers queues

  /** The reply that an event carries to a player. */
  predicate Carries(e: Event, who: Identity, id: string, r: Reply) {
    || (e.BadPutReply? && e.who == who && e.id == id && r == BadPut(e.point, e.value))
    || (e.StateReply? && e.who == who && e.id == id && r == State(e.values))
  }

  lemma FireQueues(s: Server, fd: int, i: nat)
    requires s.events != [] && fd in s.players && fd in FireFirst(s).players
    requires |s.players[fd].queued| <= i < |FireFirst(s).players[fd].queued|
    ensures Carries(s.events[0].event, s.players[fd].Who(fd), s.players[fd].id, FireFirst(s).players[fd].queued[i])
  {
  }

  lemma {:induction false} TimersQueue(s: Server, now: int, fd: int, i: nat) returns (e: Timed<Event>)
    requires fd in s.players && fd in RunTimers(s, now).players
    requires |s.players[fd].queued| <= i < |RunTimers(s, now).players[fd].queued|
    ensures e in s.events && e.due <= now
    ensures Carries(e.event, s.players[fd].Who(fd), s.players[fd].id, RunTimers(s, now).players[fd].queued[i])
    decreases |s.events|
  {
    assert Due(s, now);
    var r := FireFirst(s);
    TimersPlayer(r, now, fd);
    FirePlayer(s, fd);
    if i < |r.players[fd].queued| {
      e := s.events[0];
      FireQueues(s, fd, i);
    } else {
      e := TimersQueue(r, now, fd, i);
    }
  }

  /** Step j is the put that this reply answers, and step k, no sooner than the delay of the
      reply after it, the check of the timers that sends it. */
  ghost predicate SentOnTime(servers: seq<Server>, steps: seq<Step>, nows: seq<int>, who: Identity, id: string,
                             r: Reply, j: nat, k: nat)
    requires |servers| == |steps| + 1 == |nows| + 1
  {
    && j < k < |steps| && steps[k] == Tick
    && steps[j].Message? && steps[j].fd == who.fd && steps[j].request.PutValue? && PutBy(servers[j], who, id)
    && var p, put, K := servers[j].players[who.fd], Put(steps[j].request.point, steps[j].request.value), servers[j].K;
    match r
    case State(values) =>
      && p.canPut && Legal(put, K + 1) && |p.approximations| == K + 1
      && values == p.approximations[put.point := p.approximations[put.point] + put.value]
      && nows[k] >= nows[j] + LettersIn(id) * 1_000_000_000
    case BadPut(point, value) =>
      put == Put(point, value) && !Legal(put, K + 1) && nows[k] >= nows[j] + 1_000_000_000
    case _ => false
  }

  lemma TickOnTime(servers: seq<Server>, steps: seq<Step>, nows: seq<int>, k: nat, fd: int, i: nat) returns (j: nat)
    requires IsServerRun(servers, steps, nows) && k < |steps| && steps[k] == Tick
    requires fd in servers[k].players && fd in servers[k + 1].players
    requires |servers[k].players[fd].queued| <= i < |servers[k + 1].players[fd].queued|
    ensures var p := servers[k].players[fd];
            SentOnTime(servers, steps, nows, p.Who(fd), p.id, servers[k + 1].players[fd].queued[i], j, k)
  {
    var p := servers[k].players[fd];
    var e := TimersQueue(servers[k], nows[k], fd, i);
    j := EventsAreSet(servers, steps, nows, k, e);
    var _ := KnownSince(servers, steps, nows, fd, j);
  }

  /** No reply comes early.  In every run, each STATE and BAD_PUT ever queued for a player was
      queued by a check of the timers and answers a put of the same connection and id that
      arrived at least its delay before: 1 s, or as many seconds as the id has lower-case
      letters. */
  lemma {:induction false} RepliesNeverEarly(servers: seq<Server>, steps: seq<Step>, nows: seq<int>, n: nat, fd: int,
                                             i: nat) returns (j: nat, k: nat)
    requires IsServerRun(servers, steps, nows) && n <= |steps| && fd in servers[n].players
    requires i < |servers[n].players[fd].queued| && Timely(servers[n].players[fd].queued[i])
    ensures k < n && fd in servers[k].players
    ensures var p := servers[n].players[fd];
            SentOnTime(servers, steps, nows, p.Who(fd), servers[k].players[fd].id, p.queued[i], j, k)
  {
    assert n > 0;
    var s, step, now := servers[n - 1], steps[n - 1], nows[n - 1];
    assert Possible(s, step) && servers[n] == After(s, step, now);
    if fd !in s.players {
      StepAppears(s, step, now, fd);
    }
    if step != Take(fd) && step != NewGame {
      StepPlayer(s, step, now, fd);
    }
    if i < |s.players[fd].queued| {
      j, k := RepliesNeverEarly(servers, steps, nows, n - 1, fd, i);
    } else {
      j := TickOnTime(servers, steps, nows, n - 1, fd, i);
      k := n - 1;
    }
  }

  // ----- Clients that do not say HELLO

  lemma FireDrops(s: Server, fd: int)
    requires s.events != [] && fd in s.players && fd !in FireFirst(s).players
    ensures !s.players[fd].isKnown && s.events[0].event == HelloTimeout(s.players[fd].Who(fd))
  {
  }

  /** Checking the timers drops only unknown clients, and each for a timeout of its own that
      is due. */
  lemma {:induction false} TimersDrop(s: Server, now: int, fd: int) returns (e: Timed<Event>)
    requires fd in s.players && fd !in RunTimers(s, now).players
    ensures !s.players[fd].isKnown
    ensures e in s.events && e.due <= now && e.event == HelloTimeout(s.players[fd].Who(fd))
    decreases |s.events|
  {
    assert Due(s, now);
    if fd in FireFirst(s).players {
      FirePlayer(s, fd);
      e := TimersDrop(FireFirst(s), now, fd);
    } else {
      FireDrops(s, fd);
      e := s.events[0];
    }
  }

  /** Nobody is dropped early: a client that a check of the timers drops is unknown, and a
      connection with its descriptor, address and port was made at least 3 s before. */
  lemma DroppedOnTime(servers: seq<Server>, steps: seq<Step>, nows: seq<int>, k: nat, fd: int) returns (j: nat)
    requires IsServerRun(servers, steps, nows) && k < |steps| && steps[k] == Tick
    requires fd in servers[k].players && fd !in servers[k + 1].players
    ensures !servers[k].players[fd].isKnown
    ensures j < k && steps[j] == Connect(servers[k].players[fd].Who(fd)) && nows[k] >= nows[j] + 3_000_000_000
  {
    var e := TimersDrop(servers[k], nows[k], fd);
    j := EventsAreSet(servers, steps, nows, k, e);
  }

  lemma FireKeepsTimeout(s: Server, fd: int, e: Timed<Event>)
    requires s.events != [] && fd in FireFirst(s).players && !FireFirst(s).players[fd].isKnown
    requires e in s.events && fd in s.players && e.event == HelloTimeout(s.players[fd].Who(fd))
    ensures e in FireFirst(s).events
  {
    if e == s.events[0] {
      assert Validates(s, e.event.who);
      assert false;
    }
    assert e in s.events[1..];
  }

  lemma {:induction false} TimersKeepTimeout(s: Server, now: int, fd: int, e: Timed<Event>)
    requires fd in RunTimers(s, now).players && !RunTimers(s, now).players[fd].isKnown
    requires e in s.events && fd in s.players && e.event == HelloTimeout(s.players[fd].Who(fd))
    ensures e in RunTimers(s, now).events
    decreases |s.events|
  {
    if Due(s, now) {
      TimersPlayer(FireFirst(s), now, fd);
      FirePlayer(s, fd);
      FireKeepsTimeout(s, fd, e);
      TimersKeepTimeout(FireFirst(s), now, fd, e);
    }
  }

  lemma MessageKeepsEvents(s: Server, fd: int, request: Request, now: int)
    requires Possible(s, Message(fd, request))
    ensures forall e :: e in s.events ==> e in Receive(s, fd, request, now).events
  {
    if Ignored(s.players[fd], request) {
      IgnoredIs(s, fd, request, now);
    } else if request.Hello? {
      HelloReceived(s, fd, request.id, request.line, now);
    } else if s.players[fd].canPut && !OutOfRange(s.K, request.point, request.value) {
      AcceptedPut(s, fd, request.point, request.value, now);
      InsertMembers(s.events, StateEvent(Advanced(s.players[fd], request.point, request.value), fd, now));
    } else {
      RefusedPut(s, fd, request.point, request.value, now);
      InsertMembers(s.events, BadEvent(s.players[fd], fd, request.point, request.value, now));
    }
  }

  /** A client that stays unknown keeps its timeout. */
  lemma StepKeepsTimeout(s: Server, step: Step, now: int, fd: int, e: Timed<Event>)
    requires Possible(s, step) && step != NewGame && fd in s.players
    requires fd in After(s, step, now).players && !After(s, step, now).players[fd].isKnown
    requires e in s.events && e.event == HelloTimeout(s.players[fd].Who(fd))
    ensures e in After(s, step, now).events
  {
    match step
    case Connect(who) => InsertMembers(s.events, Timed(now + HELLO_WAIT_TIME * SECOND, HelloTimeout(who)));
    case Message(sender, request) => MessageKeepsEvents(s, sender, request, now);
    case Tick => TimersKeepTimeout(s, now, fd, e);
    case _ =>
  }

  /** In every run, a client that is still unknown has its timeout pending, 3 s after its own
      connection. */
  lemma {:induction false} TimeoutPending(servers: seq<Server>, steps: seq<Step>, nows: seq<int>, n: nat, fd: int)
    returns (j: nat)
    requires IsServerRun(servers, steps, nows) && n <= |steps|
    requires fd in servers[n].players && !servers[n].players[fd].isKnown
    ensures var who := servers[n].players[fd].Who(fd);
            && j < n && steps[j] == Connect(who) && (forall i :: j < i <= n ==> fd in servers[i].players)
            && Timed(nows[j] + 3_000_000_000, HelloTimeout(who)) in servers[n].events
  {
    assert n > 0;
    var s, step, now := servers[n - 1], steps[n - 1], nows[n - 1];
    assert Possible(s, step) && servers[n] == After(s, step, now);
    if fd !in s.players {
      StepAppears(s, step, now, fd);
      InsertMembers(s.events, Timed(now + HELLO_WAIT_TIME * SECOND, HelloTimeout(step.who)));
      j := n - 1;
    } else {
      if step != Take(fd) && step != NewGame {
        StepPlayer(s, step, now, fd);
      }
      j := TimeoutPending(servers, steps, nows, n - 1, fd);
      StepKeepsTimeout(s, step, now, fd, Timed(nows[j] + 3_000_000_000, HelloTimeout(s.players[fd].Who(fd))));
    }
  }

  /** So a client that has said no acceptable HELLO is gone after the first check of the timers
      3 s after its connection. */
  lemma SilentClientsGo(servers: seq<Server>, steps: seq<Step>, nows: seq<int>, k: nat, fd: int) returns (j: nat)
    requires IsServerRun(servers, steps, nows) && k < |steps| && steps[k] == Tick
    requires fd in servers[k].players && !servers[k].players[fd].isKnown
    ensures j < k && steps[j] == Connect(servers[k].players[fd].Who(fd))
    ensures forall i :: j < i <= k ==> fd in servers[i].players
    ensures nows[k] >= nows[j] + 3_000_000_000 ==> fd !in servers[k + 1].players
  {
    j := TimeoutPending(servers, steps, nows, k, fd);
    var s, now := servers[k], nows[k];
    var e := Timed(nows[j] + 3_000_000_000, HelloTimeout(s.players[fd].Who(fd)));
    if e.due <= now && fd in servers[k + 1].players {
      RunSorted(servers, steps, nows, k);
      TimersPlayer(s, now, fd);
      TimersKeepTimeout(s, now, fd, e);
      TimersTakeDue(s, now);
      assert false;
    }
  }
}
