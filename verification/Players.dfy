/** What a step can do to a player, and who the players are, over every run of the server. */
module Players {
  import opened Descriptors
  import opened Rows
  import opened Server
  import opened ServerRuns
  import opened Totals

  // ----- The delay

  /** How many characters of an id are lower-case letters. */
  ghost function LettersIn(id: string): nat {
    |LetterPlaces(id)|
  }

  ghost function LetterPlaces(id: string): set<int> {
    set i | 0 <= i < |id| && 'a' <= id[i] <= 'z'
  }

  lemma {:induction false} DelayIsLetters(id: string)
    ensures LowercaseLetters(id) == LettersIn(id)
  {
    if id != "" {
      var k := |id| - 1;
      DelayIsLetters(id[..k]);
      assert LetterPlaces(id) == LetterPlaces(id[..k]) + if 'a' <= id[k] <= 'z' then {k} else {};
      assert k !in LetterPlaces(id[..k]);
    }
  }

  // ----- One step

  /** The same connection, with perhaps more queued for it. */
  predicate Continues(p: PlayerInfo, q: PlayerInfo) {
    q.ip == p.ip && q.port == p.port && q.taken == p.taken && p.queued <= q.queued
  }

  predicate SamePerson(p: PlayerInfo, q: PlayerInfo) {
    q.isKnown == p.isKnown && q.id == p.id && q.delay == p.delay && q.coefficients == p.coefficients
  }

  /** What HELLO makes of an unknown client. */
  ghost predicate Introduced(p: PlayerInfo, q: PlayerInfo, id: string, line: FileLine) {
    && !p.isKnown && q.isKnown && q.canPut && q.id == id && q.delay == LettersIn(id)
    && q.coefficients == line.coefficients && q.queued == p.queued + [Coeff(line)]
  }

  /** The replies that only timers send. */
  predicate Timely(r: Reply) {
    r.State? || r.BadPut?
  }

  predicate NoReply(p: PlayerInfo, q: PlayerInfo) {
    forall i :: |p.queued| <= i < |q.queued| ==> !Timely(q.queued[i])
  }

  lemma EndGamePlayer(s: Server, fd: int)
    requires Wf(s) && fd in s.players
    ensures fd in EndGame(s).players
    ensures var p, q := s.players[fd], EndGame(s).players[fd];
            Continues(p, q) && SamePerson(p, q) && NoReply(p, q) && q.canPut == p.canPut
  {
    var fds := Ascending(s.players.Keys);
    AnnounceEffect(s.players, fds, Scoring(Sort(KnownRows(s, fds))), fd);
  }

  lemma AcceptedPlayer(r: Server, fd: int)
    requires Wf(r) && fd in r.players
    ensures fd in AfterAccepted(r).players
    ensures AfterAccepted(r).events == r.events && AfterAccepted(r).players.Keys == r.players.Keys
    ensures var p, q := r.players[fd], AfterAccepted(r).players[fd];
            Continues(p, q) && SamePerson(p, q) && NoReply(p, q) && q.canPut == p.canPut
  {
    if r.total >= r.M {
      EndGamePlayer(r, fd);
    }
  }

  lemma PutPlayer(s: Server, sender: int, point: int, value: int, now: int, fd: int)
    requires sender in s.players && Wf(s) && s.players[sender].isKnown && fd in s.players
    ensures fd in Receive(s, sender, PutValue(point, value), now).players
    ensures var p, q := s.players[fd], Receive(s, sender, PutValue(point, value), now).players[fd];
            Continues(p, q) && SamePerson(p, q) && NoReply(p, q)
  {
    if s.players[sender].canPut && !OutOfRange(s.K, point, value) {
      AcceptedPut(s, sender, point, value, now);
      AcceptedPlayer(AdvancedServer(s, sender, point, value, now), fd);
    } else {
      RefusedPut(s, sender, point, value, now);
    }
  }

  lemma ReceivePlayer(s: Server, sender: int, request: Request, now: int, fd: int)
    requires Possible(s, Message(sender, request)) && fd in s.players
    requires fd in Receive(s, sender, request, now).players
    ensures var p, q := s.players[fd], Receive(s, sender, request, now).players[fd];
            && Continues(p, q) && NoReply(p, q)
            && (SamePerson(p, q) || (sender == fd && request.Hello? && Introduced(p, q, request.id, request.line)))
  {
    if Ignored(s.players[sender], request) {
      IgnoredIs(s, sender, request, now);
    } else if request.Hello? {
      HelloReceived(s, sender, request.id, request.line, now);
      DelayIsLetters(request.id);
    } else {
      PutPlayer(s, sender, request.point, request.value, now, fd);
    }
  }

  lemma FirePlayer(s: Server, fd: int)
    requires s.events != [] && fd in FireFirst(s).players
    ensures fd in s.players && Continues(s.players[fd], FireFirst(s).players[fd])
    ensures SamePerson(s.players[fd], FireFirst(s).players[fd])
  {
  }

  lemma {:induction false} TimersPlayer(s: Server, now: int, fd: int)
    requires fd in RunTimers(s, now).players
    ensures fd in s.players && Continues(s.players[fd], RunTimers(s, now).players[fd])
    ensures SamePerson(s.players[fd], RunTimers(s, now).players[fd])
    decreases |s.events|
  {
    if Due(s, now) {
      TimersPlayer(FireFirst(s), now, fd);
      FirePlayer(s, fd);
    }
  }

  /** A step leaves a connected client the person it is, and only appends to its queue, except
      that HELLO introduces it and Take takes its next message; only timers queue STATE and
      BAD_PUT. */
  lemma StepPlayer(s: Server, step: Step, now: int, fd: int)
    requires Possible(s, step) && step != NewGame && step != Take(fd)
    requires fd in s.players && fd in After(s, step, now).players
    ensures var p, q := s.players[fd], After(s, step, now).players[fd];
            && Continues(p, q) && (step != Tick ==> NoReply(p, q))
            && (SamePerson(p, q) ||
                (step.Message? && step.fd == fd && step.request.Hello?
                 && Introduced(p, q, step.request.id, step.request.line)))
  {
    match step
    case Message(sender, request) => ReceivePlayer(s, sender, request, now, fd);
    case Tick => TimersPlayer(s, now, fd);
    case _ =>
  }

  /** Nobody but a new connection appears, unknown and with nothing queued. */
  lemma StepAppears(s: Server, step: Step, now: int, fd: int)
    requires Possible(s, step) && fd !in s.players && fd in After(s, step, now).players
    ensures step.Connect? && step.who.fd == fd
    ensures var q := After(s, step, now).players[fd];
            && q.Who(fd) == step.who && q.id == "UNKNOWN" && !q.isKnown && !q.canPut && q.queued == [] && q.taken == 0
            && q.penalty == 0 && q.correctPuts == 0 && q.delay == 0
            && q.approximations == seq(s.K + 1, i => 0) && q.coefficients == seq(s.N + 1, i => 0)
  {
    match step
    case Message(sender, request) =>
      if Ignored(s.players[sender], request) {
        IgnoredIs(s, sender, request, now);
      } else if request.Hello? {
        HelloReceived(s, sender, request.id, request.line, now);
      } else {
        PutKeys(s, sender, request.point, request.value, now);
      }
    case Tick => TimersKeys(s, now);
    case _ =>
  }

  lemma PutKeys(s: Server, sender: int, point: int, value: int, now: int)
    requires sender in s.players && Wf(s) && s.players[sender].isKnown
    ensures Receive(s, sender, PutValue(point, value), now).players.Keys == s.players.Keys
  {
    if s.players[sender].canPut && !OutOfRange(s.K, point, value) {
      AcceptedPut(s, sender, point, value, now);
    } else {
      RefusedPut(s, sender, point, value, now);
    }
  }

  lemma {:induction false} TimersKeys(s: Server, now: int)
    ensures RunTimers(s, now).players.Keys <= s.players.Keys
    decreases |s.events|
  {
    if Due(s, now) {
      TimersKeys(FireFirst(s), now);
    }
  }

  /** Which messages the server does not report as bad: the HELLO of an unknown client, and a
      legal put of a known one that may put. */
  lemma Expected(s: Server, fd: int, request: Request, now: int)
    requires Possible(s, Message(fd, request))
    ensures var p := s.players[fd];
            OnRequest(s, fd, request, now).1 <==>
            match request
            case Hello(_, _) => !p.isKnown
            case PutValue(point, value) =>
              p.isKnown && p.canPut && 0 <= point <= s.K && -50_000_000 <= value <= 50_000_000
            case Other => false
  {
  }

  // ----- Who the players are

  /** Step j was the HELLO of this player, which has been known under that id since. */
  ghost predicate HelloAt(servers: seq<Server>, steps: seq<Step>, fd: int, j: nat, n: nat)
    requires n <= |steps| && |servers| == |steps| + 1
  {
    && j < n && steps[j].Message? && steps[j].fd == fd && steps[j].request.Hello?
    && fd in servers[j].players && !servers[j].players[fd].isKnown
    && forall i :: j < i <= n ==>
         fd in servers[i].players && servers[i].players[fd].isKnown && servers[i].players[fd].id == steps[j].request.id
  }

  /** In every run, a known player is who its own HELLO said: it has that id, the delay is the
      number of lower-case letters in it, and it was sent the line of the file that its
      coefficients are from. */
  lemma {:induction false} KnownSince(servers: seq<Server>, steps: seq<Step>, nows: seq<int>, fd: int, n: nat)
    returns (j: nat)
    requires IsServerRun(servers, steps, nows) && n <= |steps|
    requires fd in servers[n].players && servers[n].players[fd].isKnown
    ensures HelloAt(servers, steps, fd, j, n)
    ensures var p, hello := servers[n].players[fd], steps[j].request;
            && p.id == hello.id && p.delay == LettersIn(p.id)
            && p.coefficients == hello.line.coefficients && Coeff(hello.line) in p.queued
  {
    assert n > 0;
    var s, step, now := servers[n - 1], steps[n - 1], nows[n - 1];
    assert Possible(s, step) && servers[n] == After(s, step, now);
    if fd !in s.players {
      StepAppears(s, step, now, fd);
    } else {
      if step != Take(fd) && step != NewGame {
        StepPlayer(s, step, now, fd);
      }
      if s.players[fd].isKnown {
        j := KnownSince(servers, steps, nows, fd, n - 1);
      } else {
        j := n - 1;
      }
    }
  }
}
