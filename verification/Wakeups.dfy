/** No player waits for ever, over every run of the server, connections that come back with the
    descriptor, address and port of an earlier one included. */
module Wakeups {
  import opened Events
  import opened Server
  import opened ServerRuns
  import opened Totals
  import opened Players
  import opened Deadlines

  /** The reply to a put of this player that arrived at `since`. */
  predicate Answers(e: Timed<Event>, who: Identity, p: PlayerInfo, since: int) {
    && e.event.who == who
    && match e.event
       case HelloTimeout(_) => false
       case BadPutReply(_, id, _, _) => id == p.id && e.due == since + BAD_PUT_DELAY * SECOND
       case StateReply(_, id, _) => id == p.id && e.due == since + p.delay * SECOND
  }

  predicate Pending(s: Server, fd: int, since: int, e: Timed<Event>) {
    fd in s.players && e in s.events && Answers(e, s.players[fd].Who(fd), s.players[fd], since)
  }

  /** The same connection, player and permission. */
  predicate Alike(p: PlayerInfo, q: PlayerInfo) {
    && q.ip == p.ip && q.port == p.port && q.id == p.id && q.delay == p.delay
    && q.isKnown == p.isKnown && q.canPut == p.canPut
  }

  predicate Waits(s: Server, fd: int) {
    fd in s.players && s.players[fd].isKnown && !s.players[fd].canPut
  }

  ghost predicate Kept(s: Server, r: Server) {
    forall e :: e in s.events ==> e in r.events
  }

  // ----- Messages

  lemma InsertKeeps(s: Server, e: Timed<Event>)
    ensures forall x :: x in Insert(s.events, e) <==> x in s.events || x == e
  {
    InsertMembers(s.events, e);
  }

  /** What a put that is accepted does to its sender and to everyone else. */
  lemma AcceptedSeen(s: Server, sender: int, point: int, value: int, now: int, fd: int)
    requires sender in s.players && Wf(s) && s.players[sender].isKnown && fd in s.players
    requires s.players[sender].canPut && !OutOfRange(s.K, point, value)
    ensures var r := Receive(s, sender, PutValue(point, value), now);
            && fd in r.players && Kept(s, r)
            && (fd != sender ==> Alike(s.players[fd], r.players[fd]))
            && (fd == sender ==>
                  && Alike(s.players[fd].(canPut := false), r.players[fd])
                  && exists e :: Pending(r, fd, now, e))
  {
    AcceptedPut(s, sender, point, value, now);
    var m := AdvancedServer(s, sender, point, value, now);
    AcceptedPlayer(m, fd);
    var e := StateEvent(Advanced(s.players[sender], point, value), sender, now);
    InsertKeeps(s, e);
    if fd == sender {
      assert Pending(AfterAccepted(m), fd, now, e);
    }
  }

  lemma RefusedSeen(s: Server, sender: int, point: int, value: int, now: int, fd: int)
    requires sender in s.players && Wf(s) && s.players[sender].isKnown && fd in s.players
    requires !s.players[sender].canPut || OutOfRange(s.K, point, value)
    ensures var r := Receive(s, sender, PutValue(point, value), now);
            && fd in r.players && Kept(s, r)
            && (fd != sender ==> Alike(s.players[fd], r.players[fd]))
            && (fd == sender ==>
                  && Alike(s.players[fd].(canPut := false), r.players[fd])
                  && (s.players[fd].canPut ==> exists e :: Pending(r, fd, now, e)))
  {
    var outside := OutOfRange(s.K, point, value);
    RefusedPut(s, sender, point, value, now);
    var r := RefusedServer(s, sender, outside, point, value, now);
    if outside {
      var e := BadEvent(s.players[sender], sender, point, value, now);
      InsertKeeps(s, e);
      if fd == sender {
        assert Pending(r, fd, now, e);
      }
    }
  }

  /** A message of another client. */
  lemma OtherMessage(s: Server, sender: int, request: Request, now: int, fd: int)
    requires Possible(s, Message(sender, request)) && fd != sender && Waits(Receive(s, sender, request, now), fd)
    ensures fd in s.players && Alike(s.players[fd], Receive(s, sender, request, now).players[fd])
    ensures Kept(s, Receive(s, sender, request, now))
  {
    var p := s.players[sender];
    if Ignored(p, request) {
      IgnoredIs(s, sender, request, now);
    } else if request.Hello? {
      HelloReceived(s, sender, request.id, request.line, now);
    } else {
      PutKeys(s, sender, request.point, request.value, now);
      if p.canPut && !OutOfRange(s.K, request.point, request.value) {
        AcceptedSeen(s, sender, request.point, request.value, now, fd);
      } else {
        RefusedSeen(s, sender, request.point, request.value, now, fd);
      }
    }
  }

  /** A message after which its sender waits: the sender was waiting before, or the message is
      the put that begins the wait and whose reply is scheduled. */
  lemma OwnMessage(s: Server, fd: int, request: Request, now: int)
    requires Possible(s, Message(fd, request)) && Waits(Receive(s, fd, request, now), fd)
    ensures s.players[fd].isKnown && Kept(s, Receive(s, fd, request, now))
    ensures !s.players[fd].canPut ==> Alike(s.players[fd], Receive(s, fd, request, now).players[fd])
    ensures s.players[fd].canPut ==>
              request.PutValue? && exists e :: Pending(Receive(s, fd, request, now), fd, now, e)
  {
    var p := s.players[fd];
    if Ignored(p, request) {
      IgnoredIs(s, fd, request, now);
    } else if request.Hello? {
      HelloReceived(s, fd, request.id, request.line, now);
    } else if p.canPut && !OutOfRange(s.K, request.point, request.value) {
      AcceptedSeen(s, fd, request.point, request.value, now, fd);
    } else {
      RefusedSeen(s, fd, request.point, request.value, now, fd);
    }
  }

  // ----- Timers

  /** A callback that leaves a player waiting leaves it alone, and is not the reply to it. */
  lemma FireWaits(s: Server, fd: int)
    requires s.events != [] && Waits(FireFirst(s), fd)
    ensures fd in s.players && Alike(s.players[fd], FireFirst(s).players[fd])
    ensures forall since, e :: Pending(s, fd, since, e) ==> Pending(FireFirst(s), fd, since, e)
  {
    forall since, e | Pending(s, fd, since, e)
      ensures Pending(FireFirst(s), fd, since, e)
    {
      if e == s.events[0] {
        assert Validates(s, e.event.who);
        assert false;
      }
      assert e in s.events[1..];
    }
  }

  lemma {:induction false} TimersWait(s: Server, now: int, fd: int)
    requires Waits(RunTimers(s, now), fd)
    ensures fd in s.players && Alike(s.players[fd], RunTimers(s, now).players[fd])
    ensures forall since, e :: Pending(s, fd, since, e) ==> Pending(RunTimers(s, now), fd, since, e)
    decreases |s.events|
  {
    if Due(s, now) {
      TimersWait(FireFirst(s), now, fd);
      FireWaits(s, fd);
    }
  }

  // ----- One step

  /** If a player waits after a step that does not begin the wait, it waited before, and the
      reply it waited for is still pending. */
  lemma StillWaits(s: Server, step: Step, now: int, fd: int, since: int, e: Timed<Event>)
    requires Possible(s, step) && Waits(After(s, step, now), fd) && Waits(s, fd) && Pending(s, fd, since, e)
    ensures Pending(After(s, step, now), fd, since, e)
  {
    match step
    case Connect(who) => InsertKeeps(s, Timed(now + HELLO_WAIT_TIME * SECOND, HelloTimeout(who)));
    case Message(sender, request) =>
      if sender == fd {
        OwnMessage(s, fd, request, now);
      } else {
        OtherMessage(s, sender, request, now, fd);
      }
    case Tick => TimersWait(s, now, fd);
    case _ =>
  }

  /** A wait begins with a put of the player, which schedules the reply to it. */
  lemma WaitBegins(s: Server, step: Step, now: int, fd: int)
    requires Possible(s, step) && Waits(After(s, step, now), fd) && !Waits(s, fd)
    ensures step.Message? && step.fd == fd && step.request.PutValue?
    ensures fd in s.players && s.players[fd].isKnown && s.players[fd].canPut
    ensures exists e :: Pending(After(s, step, now), fd, now, e)
  {
    match step
    case Message(sender, request) =>
      if sender == fd {
        OwnMessage(s, fd, request, now);
      } else {
        OtherMessage(s, sender, request, now, fd);
      }
    case Tick => TimersWait(s, now, fd);
    case _ =>
  }

  // ----- Runs

  /** Step j is the put that began the wait of this player, which has lasted until step n. */
  ghost predicate WaitsSince(servers: seq<Server>, steps: seq<Step>, fd: int, j: nat, n: nat)
    requires n <= |steps| && |servers| == |steps| + 1
  {
    && j < n && steps[j].Message? && steps[j].fd == fd && steps[j].request.PutValue?
    && fd in servers[j].players && servers[j].players[fd].isKnown && servers[j].players[fd].canPut
    && forall i :: j < i <= n ==> Waits(servers[i], fd)
  }

  lemma {:induction false} WaitInRun(servers: seq<Server>, steps: seq<Step>, nows: seq<int>, fd: int, n: nat)
    returns (j: nat, e: Timed<Event>)
    requires IsServerRun(servers, steps, nows) && n <= |steps| && Waits(servers[n], fd)
    ensures WaitsSince(servers, steps, fd, j, n) && Pending(servers[n], fd, nows[j], e)
  {
    assert n > 0;
    var s, step, now := servers[n - 1], steps[n - 1], nows[n - 1];
    assert Possible(s, step) && servers[n] == After(s, step, now);
    if Waits(s, fd) {
      j, e := WaitInRun(servers, steps, nows, fd, n - 1);
      StillWaits(s, step, now, fd, nows[j], e);
    } else {
      WaitBegins(s, step, now, fd);
      j := n - 1;
      e :| Pending(servers[n], fd, now, e);
    }
  }

  // ----- Waking up

  /** Firing an event keeps known players, and never takes back the permission to put. */
  lemma FireKeepsKnown(s: Server, fd: int)
    requires s.events != [] && fd in s.players && s.players[fd].isKnown
    ensures fd in FireFirst(s).players
    ensures var p, q := s.players[fd], FireFirst(s).players[fd];
            Alike(p.(canPut := q.canPut), q) && (p.canPut ==> q.canPut)
  {
  }

  lemma {:induction false} StaysAble(s: Server, fd: int, now: int)
    requires fd in s.players && s.players[fd].isKnown && s.players[fd].canPut
    ensures fd in RunTimers(s, now).players && RunTimers(s, now).players[fd].canPut
    decreases |s.events|
  {
    if Due(s, now) {
      FireKeepsKnown(s, fd);
      StaysAble(FireFirst(s), fd, now);
    }
  }

  lemma DueWithFirst(s: Server, e: Timed<Event>, now: int)
    requires Events.Sorted(s.events) && e in s.events && e.due <= now
    ensures Due(s, now)
  {
  }

  lemma OtherEventFires(s: Server, fd: int, since: int, e: Timed<Event>)
    requires Pending(s, fd, since, e) && s.players[fd].isKnown && s.events[0] != e
    ensures Pending(FireFirst(s), fd, since, e) && FireFirst(s).players[fd].isKnown
  {
    FireKeepsKnown(s, fd);
    var i :| 0 <= i < |s.events| && s.events[i] == e;
    assert s.events[1..][i - 1] == e;
  }

  /** Checking the timers when a pending reply to a known player is due leaves the player able
      to put. */
  lemma {:induction false} TimersWakeUp(s: Server, fd: int, since: int, e: Timed<Event>, now: int)
    requires Events.Sorted(s.events) && Pending(s, fd, since, e) && s.players[fd].isKnown && e.due <= now
    ensures fd in RunTimers(s, now).players && RunTimers(s, now).players[fd].canPut
    decreases |s.events|
  {
    DueWithFirst(s, e, now);
    FireKeepsKnown(s, fd);
    if s.events[0] == e {
      StaysAble(FireFirst(s), fd, now);
    } else {
      FireSorted(s);
      OtherEventFires(s, fd, since, e);
      TimersWakeUp(FireFirst(s), fd, since, e, now);
    }
  }

  // ----- Main result

  /** No player gets stuck.  The wait of a known player that may not put began with some step
      j, a put it was allowed to send, and has lasted since; the reply to that very put is
      pending for its own connection and id, due exactly 1 s after the put if it is BAD_PUT, and
      as many seconds as the id has lower-case letters if it is STATE.  Putting again meanwhile
      does not put it off.  Checking the timers at or after that time lets the player put
      again. */
  lemma NobodyIsStuck(servers: seq<Server>, steps: seq<Step>, nows: seq<int>, fd: int, now: int)
    returns (j: nat, e: Timed<Event>)
    requires IsServerRun(servers, steps, nows) && Waits(servers[|steps|], fd)
    ensures WaitsSince(servers, steps, fd, j, |steps|) && Pending(servers[|steps|], fd, nows[j], e)
    ensures var id := servers[|steps|].players[fd].id;
            e.due == nows[j] + (if e.event.BadPutReply? then 1 else LettersIn(id)) * 1_000_000_000
    ensures now >= e.due ==>
              var r := RunTimers(servers[|steps|], now); fd in r.players && r.players[fd].canPut
  {
    j, e := WaitInRun(servers, steps, nows, fd, |steps|);
    var _ := KnownSince(servers, steps, nows, fd, |steps|);
    if now >= e.due {
      RunSorted(servers, steps, nows, |steps|);
      TimersWakeUp(servers[|steps|], fd, nows[j], e, now);
    }
  }
}
