/** The count of accepted puts, over every run of the server, connections that come back with
    the descriptor, address and port of an earlier one included. */
module Totals {
  import opened Rows
  import opened Descriptors
  import opened Server
  import opened ServerRuns

  function After(s: Server, step: Step, now: int): Server
    requires Possible(s, step)
  {
    match step
    case Connect(who) => Register(s, who, now)
    case Message(fd, request) => Receive(s, fd, request, now)
    case Leave(fd) => Disconnect(s, fd)
    case Tick => RunTimers(s, now)
    case Take(fd) => TakeMessage(s, fd)
    case NewGame => ResetGame(s)
  }

  ghost predicate Begins(s: Server) {
    s.players == map[] && s.total == 0 && s.events == [] && !s.stopping && s.M >= 1
  }

  /** A new game begins as the first one did, with the same settings. */
  lemma NewGameBegins(s: Server)
    requires s.M >= 1
    ensures var r := ResetGame(s); Begins(r) && r.K == s.K && r.N == s.N && r.M == s.M
  {
  }

  /** A run of the server alone; `nows` are the instants of the steps. */
  ghost predicate IsServerRun(servers: seq<Server>, steps: seq<Step>, nows: seq<int>) {
    && |servers| == |steps| + 1 == |nows| + 1 && Begins(servers[0])
    && forall k :: 0 <= k < |steps| ==>
         Possible(servers[k], steps[k]) && servers[k + 1] == After(servers[k], steps[k], nows[k])
  }

  lemma ApplyIsAfter(g: Game, step: Step, now: int)
    requires Enabled(g, step, now)
    ensures Apply(g, step, now).s == After(g.s, step, now)
  {
  }

  function ServersOf(games: seq<Game>): (servers: seq<Server>)
    ensures |servers| == |games| && forall k :: 0 <= k < |games| ==> servers[k] == games[k].s
  {
    seq(|games|, k requires 0 <= k < |games| => games[k].s)
  }

  function InstantsOf(games: seq<Game>): (nows: seq<int>)
    requires games != []
    ensures |nows| + 1 == |games| && forall k :: 0 <= k < |nows| ==> nows[k] == games[k + 1].now
  {
    seq(|games| - 1, k requires 0 <= k < |games| - 1 => games[k + 1].now)
  }

  /** The runs of ServerRuns are such runs. */
  lemma GamesAreServerRuns(games: seq<Game>, steps: seq<Step>)
    requires ServerRuns.IsRun(games, steps)
    ensures IsServerRun(ServersOf(games), steps, InstantsOf(games))
  {
    forall k | 0 <= k < |steps|
      ensures Possible(games[k].s, steps[k]) && games[k + 1].s == After(games[k].s, steps[k], games[k + 1].now)
    {
      ApplyIsAfter(games[k], steps[k], games[k + 1].now);
    }
  }

  /** The vectors have their sizes, and the total is right. */
  ghost predicate Sound(s: Server) {
    Wf(s) && CountOk(s)
  }

  // ----- The end of the game

  /** The sum depends only on the counts. */
  lemma {:induction false} SameCounts(a: map<int, PlayerInfo>, b: map<int, PlayerInfo>)
    requires a.Keys == b.Keys && forall fd :: fd in a ==> a[fd].correctPuts == b[fd].correctPuts
    ensures CountedPuts(a) == CountedPuts(b)
    decreases |a|
  {
    if a.Keys != {} {
      var fd := Least(a.Keys);
      assert (a - {fd}).Keys == a.Keys - {fd} == (b - {fd}).Keys;
      SameCounts(a - {fd}, b - {fd});
    }
  }

  lemma {:induction false} AnnounceKeepsCounts(players: map<int, PlayerInfo>, fds: seq<int>, r: Reply)
    requires forall fd :: fd in fds ==> fd in players
    ensures forall fd :: fd in players ==>
              var p, q := players[fd], Announce(players, fds, r)[fd];
              && q.correctPuts == p.correctPuts && q.approximations == p.approximations
              && q.coefficients == p.coefficients
              && q.taken == p.taken && |q.queued| >= |p.queued|
  {
    if fds != [] {
      AnnounceKeepsCounts(players, fds[..|fds| - 1], r);
    }
  }

  lemma EndGameSound(s: Server)
    requires Wf(s) && s.M >= 1 && s.total == CountedPuts(s.players) == s.M
    ensures Sound(EndGame(s))
  {
    var fds := Ascending(s.players.Keys);
    var scoring := Scoring(Sort(KnownRows(s, fds)));
    AnnounceKeepsCounts(s.players, fds, scoring);
    SameCounts(s.players, Announce(s.players, fds, scoring));
    EndGameWf(s);
  }

  lemma EndGameWf(s: Server)
    requires Wf(s)
    ensures Wf(EndGame(s))
  {
    var fds := Ascending(s.players.Keys);
    AnnounceKeepsCounts(s.players, fds, Scoring(Sort(KnownRows(s, fds))));
    forall fd | fd in EndGame(s).players
      ensures PlayerWf(s, EndGame(s).players[fd])
    {
      assert PlayerWf(s, s.players[fd]);
    }
  }

  // ----- The steps

  lemma RegisterSound(s: Server, who: Identity, now: int)
    requires Sound(s) && who.fd !in s.players
    ensures Sound(Register(s, who, now))
  {
    ConnectCounts(s, who, now);
    assert PlayerWf(s, NewPlayer(s.K, s.N, who));
  }

  lemma DisconnectSound(s: Server, fd: int)
    requires Sound(s) && fd in s.players && !s.stopping
    ensures Sound(Disconnect(s, fd))
  {
    CountedPutsSplit(s.players, fd);
  }

  /** One player changes, and its counted puts with the total. */
  lemma PlayerSound(s: Server, r: Server, fd: int)
    requires Sound(s) && fd in s.players && fd in r.players && r.players == s.players[fd := r.players[fd]]
    requires r.K == s.K && r.N == s.N && r.M == s.M && PlayerWf(r, r.players[fd])
    requires r.total == s.total + r.players[fd].correctPuts - s.players[fd].correctPuts <= r.M
    requires r.stopping <==> r.total == r.M
    ensures Sound(r)
  {
    LocalCount(s, r, fd);
  }

  lemma HelloSound(s: Server, fd: int, id: string, line: FileLine)
    requires Sound(s) && fd in s.players && |line.coefficients| == s.N + 1
    ensures Sound(OnHello(s, fd, id, line).0)
  {
    PlayerSound(s, OnHello(s, fd, id, line).0, fd);
  }

  lemma RefusedSound(s: Server, fd: int, outside: bool, point: int, value: int, now: int)
    requires Sound(s) && fd in s.players
    ensures Sound(RefusedServer(s, fd, outside, point, value, now))
  {
    assert PlayerWf(s, s.players[fd]);
    PlayerSound(s, RefusedServer(s, fd, outside, point, value, now), fd);
  }

  lemma AdvancedCounts(s: Server, fd: int, point: int, value: int, now: int)
    requires Sound(s) && fd in s.players && 0 <= point < |s.players[fd].approximations| && !s.stopping
    ensures var r := AdvancedServer(s, fd, point, value, now);
            r.M >= 1 && r.total == CountedPuts(r.players) <= r.M && !r.stopping
  {
    CountedPutsSplit(s.players, fd);
    CountedPutsUpdate(s.players, fd, Advanced(s.players[fd], point, value));
  }

  lemma AcceptedSound(s: Server, fd: int, point: int, value: int, now: int)
    requires Sound(s) && fd in s.players && s.players[fd].isKnown && !s.stopping
    requires s.players[fd].canPut && !OutOfRange(s.K, point, value)
    ensures Sound(Receive(s, fd, PutValue(point, value), now))
  {
    AcceptedPut(s, fd, point, value, now);
    AdvancedCounts(s, fd, point, value, now);
    var r := AdvancedServer(s, fd, point, value, now);
    if r.total >= r.M {
      EndGameSound(r);
    }
  }

  lemma HelloReceived(s: Server, fd: int, id: string, line: FileLine, now: int)
    requires Wf(s) && fd in s.players && !s.players[fd].isKnown
    ensures Receive(s, fd, Hello(id, line), now) == OnHello(s, fd, id, line).0
  {
  }

  lemma MessageSound(s: Server, fd: int, request: Request, now: int)
    requires Sound(s) && Possible(s, Message(fd, request))
    ensures Sound(Receive(s, fd, request, now))
  {
    var p := s.players[fd];
    if Ignored(p, request) {
      IgnoredIs(s, fd, request, now);
      if !p.isKnown {
        DisconnectSound(s, fd);
      }
    } else if request.Hello? {
      HelloReceived(s, fd, request.id, request.line, now);
      HelloSound(s, fd, request.id, request.line);
    } else if p.canPut && !OutOfRange(s.K, request.point, request.value) {
      AcceptedSound(s, fd, request.point, request.value, now);
    } else {
      RefusedPut(s, fd, request.point, request.value, now);
      RefusedSound(s, fd, OutOfRange(s.K, request.point, request.value), request.point, request.value, now);
    }
  }

  lemma FireSound(s: Server)
    requires Sound(s) && s.events != [] && !s.stopping
    ensures Sound(FireFirst(s)) && !FireFirst(s).stopping
  {
    var e, fd := s.events[0].event, s.events[0].event.who.fd;
    if Validates(s, e.who) {
      assert PlayerWf(s, s.players[fd]);
      if e.HelloTimeout? && !s.players[fd].isKnown {
        DisconnectSound(s, fd);
      } else if !e.HelloTimeout? && s.players[fd].id == e.id {
        PlayerSound(s, FireFirst(s), fd);
      }
    }
  }

  lemma {:induction false} TimersSound(s: Server, now: int)
    requires Sound(s) && !s.stopping
    ensures Sound(RunTimers(s, now))
    decreases |s.events|
  {
    if Due(s, now) {
      FireSound(s);
      TimersSound(FireFirst(s), now);
    }
  }

  lemma TakeSound(s: Server, fd: int)
    requires Sound(s) && fd in s.players && s.players[fd].taken < |s.players[fd].queued|
    ensures Sound(TakeMessage(s, fd))
  {
    assert PlayerWf(s, s.players[fd]);
    PlayerSound(s, TakeMessage(s, fd), fd);
  }

  lemma StepSound(s: Server, step: Step, now: int)
    requires Sound(s) && Possible(s, step)
    ensures Sound(After(s, step, now))
  {
    match step
    case Connect(who) => RegisterSound(s, who, now);
    case Message(fd, request) => MessageSound(s, fd, request, now);
    case Leave(fd) => DisconnectSound(s, fd);
    case Tick => TimersSound(s, now);
    case Take(fd) => TakeSound(s, fd);
    case NewGame =>
  }

  lemma {:induction false} RunSound(servers: seq<Server>, steps: seq<Step>, nows: seq<int>)
    requires IsServerRun(servers, steps, nows)
    ensures Sound(servers[|steps|])
    decreases |steps|
  {
    if steps != [] {
      var k := |steps| - 1;
      assert IsServerRun(servers[..|steps|], steps[..k], nows[..k]);
      RunSound(servers[..|steps|], steps[..k], nows[..k]);
      StepSound(servers[k], steps[k], nows[k]);
    }
  }

  /** Conservation.  The running total is the number of accepted puts of the connected
      players, never exceeds M, and the game is over exactly when it is M.  The vectors of
      every player keep their sizes, so the condition on them in Possible holds in every
      run. */
  lemma Conservation(servers: seq<Server>, steps: seq<Step>, nows: seq<int>)
    requires IsServerRun(servers, steps, nows)
    ensures var s := servers[|steps|];
            && s.total == CountedPuts(s.players) <= s.M && (s.stopping <==> s.total == s.M)
            && Wf(s)
  {
    RunSound(servers, steps, nows);
  }
}
