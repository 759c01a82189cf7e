/** The game server (the-great-approximator/server_logic.cpp, the connection handling of
    approx-server.cpp and the callbacks it gives to the timer queue).

    `Server` is the value of the server's state and the functions say what each operation
    does to it; the class ServerLogic is the server itself and its methods are proved
    against them.  The lines of a player's `messages` deque are represented by everything
    ever appended to it and the number of messages already taken from its front.  Scores are
    exact and counted in units of 10^-14, the square of the lattice. */
module Server {
  import opened Greedy
  import opened Poly
  import opened Events
  import opened Rows
  import opened Descriptors

  const SECOND := 1_000_000_000
  const EARLY_PUT_PENALTY := 20
  const BAD_PUT_PENALTY := 10
  const BAD_PUT_DELAY := 1
  const HELLO_WAIT_TIME := 3

  datatype Identity = Identity(fd: int, ip: string, port: int)

  datatype Event =
    | HelloTimeout(who: Identity)
    | BadPutReply(who: Identity, id: string, point: int, value: int)
    | StateReply(who: Identity, id: string, values: seq<int>)

  /** A line of the coefficient file and the numbers on it. */
  datatype FileLine = FileLine(raw: string, coefficients: seq<int>)

  /** A parsed message from a client.  HELLO comes with the line that the server then reads
      from its file. */
  datatype Request = Hello(id: string, line: FileLine) | PutValue(point: int, value: int) | Other

  datatype Reply =
    | Coeff(line: FileLine)
    | State(values: seq<int>)
    | BadPut(point: int, value: int)
    | Penalty(point: int, value: int)
    | Scoring(rows: seq<Row>)

  datatype PlayerInfo = PlayerInfo(
    id: string, ip: string, port: int, queued: seq<Reply>, taken: nat,
    approximations: seq<int>, coefficients: seq<int>, penalty: nat,
    isKnown: bool, correctPuts: nat, canPut: bool, delay: nat)
  {
    function Append(r: Reply): PlayerInfo {
      this.(queued := queued + [r])
    }

    function TakeFront(): PlayerInfo {
      this.(taken := taken + 1)
    }

    function Who(fd: int): Identity {
      Identity(fd, ip, port)
    }
  }

  datatype Server = Server(K: nat, N: nat, M: nat, players: map<int, PlayerInfo>, total: int,
                           events: seq<Timed<Event>>, stopping: bool)

  predicate PlayerWf(s: Server, p: PlayerInfo) {
    |p.approximations| == s.K + 1 && |p.coefficients| == s.N + 1 && p.taken <= |p.queued|
  }

  /** Vector sizes of every connected player. */
  ghost predicate Wf(s: Server) {
    forall fd :: fd in s.players ==> PlayerWf(s, s.players[fd])
  }

  function Update(s: Server, fd: int, p: PlayerInfo): Server {
    s.(players := s.players[fd := p])
  }

  function Schedule(s: Server, event: Event, due: int): Server {
    s.(events := Insert(s.events, Timed(due, event)))
  }

  // ----- Connections

  function NewPlayer(K: nat, N: nat, who: Identity): PlayerInfo {
    PlayerInfo("UNKNOWN", who.ip, who.port, [], 0, seq(K + 1, i => 0), seq(N + 1, i => 0), 0, false, 0, false, 0)
  }

  function Register(s: Server, who: Identity, now: int): Server {
    Schedule(Update(s, who.fd, NewPlayer(s.K, s.N, who)), HelloTimeout(who), now + HELLO_WAIT_TIME * SECOND)
  }

  function Disconnect(s: Server, fd: int): Server
    requires fd in s.players
  {
    s.(total := s.total - s.players[fd].correctPuts, players := s.players - {fd})
  }

  function TakeMessage(s: Server, fd: int): Server
    requires fd in s.players
  {
    Update(s, fd, s.players[fd].TakeFront())
  }

  predicate Validates(s: Server, who: Identity) {
    who.fd in s.players && s.players[who.fd].ip == who.ip && s.players[who.fd].port == who.port
  }

  // ----- Requests

  function LowercaseLetters(id: string): nat {
    if id == "" then 0
    else LowercaseLetters(id[..|id| - 1]) + if 'a' <= id[|id| - 1] <= 'z' then 1 else 0
  }

  function OnHello(s: Server, fd: int, id: string, line: FileLine): (Server, bool)
    requires fd in s.players
  {
    var p := s.players[fd];
    if p.isKnown then (s, false)
    else
      (Update(s, fd, p.(id := id, delay := LowercaseLetters(id), isKnown := true, canPut := true,
                        coefficients := line.coefficients).Append(Coeff(line))), true)
  }

  /** The range check of handle_put.  The tolerance 3e-8 is three tenths of a lattice unit. */
  predicate OutOfRange(K: nat, point: int, value: int) {
    point < 0 || point > K || 10 * value + 3 < -10 * MAX_PUT || 10 * value - 3 > 10 * MAX_PUT
  }

  /** On the lattice the tolerance admits nothing beyond [-5, 5]. */
  lemma ToleranceVanishes(K: nat, point: int, value: int)
    ensures !OutOfRange(K, point, value) <==> Legal(Put(point, value), K + 1)
  {
  }

  function GivePenalty(s: Server, fd: int, point: int, value: int): Server
    requires fd in s.players
  {
    var p := s.players[fd];
    Update(s, fd, p.(penalty := p.penalty + EARLY_PUT_PENALTY, canPut := true).Append(Penalty(point, value)))
  }

  function GiveBadPut(s: Server, fd: int, point: int, value: int, now: int): Server
    requires fd in s.players
  {
    var p := s.players[fd];
    Schedule(Update(s, fd, p.(penalty := p.penalty + BAD_PUT_PENALTY)),
             BadPutReply(p.Who(fd), p.id, point, value), now + BAD_PUT_DELAY * SECOND)
  }

  function GiveState(s: Server, fd: int, now: int): Server
    requires fd in s.players
  {
    var p := s.players[fd];
    Schedule(s, StateReply(p.Who(fd), p.id, p.approximations), now + p.delay * SECOND)
  }

  /** An accepted put: it is counted, applied and its STATE scheduled. */
  function Accept(s: Server, fd: int, point: int, value: int, now: int): Server
    requires fd in s.players && 0 <= point < |s.players[fd].approximations|
  {
    var p := s.players[fd];
    var q := p.(correctPuts := p.correctPuts + 1,
                approximations := p.approximations[point := p.approximations[point] + value]);
    GiveState(Update(s, fd, q).(total := s.total + 1), fd, now)
  }

  function OnPut(s: Server, fd: int, point: int, value: int, now: int): (Server, bool)
    requires fd in s.players && Wf(s)
  {
    if !s.players[fd].isKnown then (s, false)
    else
      var early := !s.players[fd].canPut;
      var s1 := if early then GivePenalty(s, fd, point, value) else s;
      var s2 := Update(s1, fd, s1.players[fd].(canPut := false));
      var outside := OutOfRange(s.K, point, value);
      var s3 := if outside then GiveBadPut(s2, fd, point, value, now) else s2;
      if early || outside then (s3, false)
      else
        var s4 := Accept(s3, fd, point, value, now);
        (if s4.total >= s4.M then EndGame(s4) else s4, true)
  }

  function OnRequest(s: Server, fd: int, request: Request, now: int): (Server, bool)
    requires fd in s.players && Wf(s)
  {
    match request
    case Hello(id, line) => OnHello(s, fd, id, line)
    case PutValue(point, value) => OnPut(s, fd, point, value, now)
    case Other => (s, false)
  }

  /** One message of the read loop: a client that is still unknown after it is dropped. */
  function Receive(s: Server, fd: int, request: Request, now: int): Server
    requires fd in s.players && Wf(s)
  {
    var r := OnRequest(s, fd, request, now).0;
    if fd in r.players && !r.players[fd].isKnown then Disconnect(r, fd) else r
  }

  // ----- Scoring

  function Differences(K: nat, p: PlayerInfo): (d: seq<int>)
    requires |p.approximations| == K + 1
    ensures |d| == K + 1
  {
    seq(K + 1, x requires 0 <= x <= K => Value(p.coefficients, x) - p.approximations[x])
  }

  function Score(K: nat, p: PlayerInfo): int
    requires |p.approximations| == K + 1
  {
    SquaredError(Differences(K, p)) + p.penalty * SCALE * SCALE
  }

  function KnownRows(s: Server, fds: seq<int>): seq<Row>
    requires Wf(s) && forall fd :: fd in fds ==> fd in s.players
  {
    if fds == [] then []
    else
      var fd := fds[|fds| - 1];
      var p := s.players[fd];
      KnownRows(s, fds[..|fds| - 1]) + if p.isKnown then [Row(p.id, Score(s.K, p))] else []
  }

  function Announce(players: map<int, PlayerInfo>, fds: seq<int>, r: Reply): (announced: map<int, PlayerInfo>)
    requires forall fd :: fd in fds ==> fd in players
    ensures announced.Keys == players.Keys
  {
    if fds == [] then players
    else
      var fd := fds[|fds| - 1];
      var before := Announce(players, fds[..|fds| - 1], r);
      if before[fd].isKnown then before[fd := before[fd].Append(r)] else before
  }

  function EndGame(s: Server): Server
    requires Wf(s)
  {
    var fds := Ascending(s.players.Keys);
    var scoring := Scoring(Sort(KnownRows(s, fds)));
    s.(players := Announce(s.players, fds, scoring), stopping := true)
  }

  // ----- Timers

  function Fire(s: Server, event: Event): Server {
    match event
    case HelloTimeout(who) =>
      if Validates(s, who) && !s.players[who.fd].isKnown then Disconnect(s, who.fd) else s
    case BadPutReply(who, id, point, value) =>
      if Validates(s, who) && s.players[who.fd].id == id
      then Update(s, who.fd, s.players[who.fd].(canPut := true).Append(BadPut(point, value))) else s
    case StateReply(who, id, values) =>
      if Validates(s, who) && s.players[who.fd].id == id
      then Update(s, who.fd, s.players[who.fd].(canPut := true).Append(State(values))) else s
  }

  predicate Due(s: Server, now: int) {
    s.events != [] && s.events[0].due <= now
  }

  /** Calls the first callback and erases its event. */
  function FireFirst(s: Server): (r: Server)
    requires s.events != []
    ensures r.events == s.events[1..]
  {
    Fire(s, s.events[0].event).(events := s.events[1..])
  }

  function RunTimers(s: Server, now: int): Server
    decreases |s.events|
  {
    if Due(s, now) then RunTimers(FireFirst(s), now) else s
  }

  function ResetGame(s: Server): Server {
    s.(events := [], total := 0, players := map[], stopping := false)
  }

  // ----- The server itself

  class ServerLogic {
    const K: nat
    const N: nat
    const M: nat
    const eventManager: EventManager<Event>

    var players: map<int, PlayerInfo>
    var totalCorrectPuts: int
    var stopping: bool

    function Contents(): Server
      reads this, eventManager
    {
      Server(K, N, M, players, totalCorrectPuts, eventManager.events, stopping)
    }

    constructor (K: nat, N: nat, M: nat)
      ensures Contents() == Server(K, N, M, map[], 0, [], false) && fresh(eventManager)
    {
      this.K, this.N, this.M := K, N, M;
      players, totalCorrectPuts, stopping := map[], 0, false;
      eventManager := new EventManager<Event>();
    }

    method RegisterNewClient(fd: int, ip: string, port: int)
      modifies this`players
      ensures Contents() == Update(old(Contents()), fd, NewPlayer(K, N, Identity(fd, ip, port)))
    {
      players := players[fd := NewPlayer(K, N, Identity(fd, ip, port))];
    }

    method HandleNewConnection(fd: int, ip: string, port: int, now: int)
      modifies this`players, eventManager
      ensures Contents() == Register(old(Contents()), Identity(fd, ip, port), now)
    {
      RegisterNewClient(fd, ip, port);
      eventManager.AddEvent(HelloTimeout(Identity(fd, ip, port)), now + HELLO_WAIT_TIME * SECOND);
    }

    method HandleClientDisconnect(fd: int)
      requires fd in players
      modifies this`players, this`totalCorrectPuts
      ensures Contents() == Disconnect(old(Contents()), fd)
    {
      totalCorrectPuts := totalCorrectPuts - players[fd].correctPuts;
      players := players - {fd};
    }

    method AppendMessageBack(fd: int, r: Reply)
      requires fd in players
      modifies this`players
      ensures Contents() == Update(old(Contents()), fd, old(players[fd]).Append(r))
    {
      players := players[fd := players[fd].Append(r)];
    }

    method TakeNextMessage(fd: int) returns (r: Reply)
      requires fd in players && players[fd].taken < |players[fd].queued|
      modifies this`players
      ensures r == old(players[fd].queued[players[fd].taken])
      ensures Contents() == TakeMessage(old(Contents()), fd)
    {
      r := players[fd].queued[players[fd].taken];
      players := players[fd := players[fd].(taken := players[fd].taken + 1)];
    }

    method HandleHello(fd: int, id: string, line: FileLine) returns (expected: bool)
      requires fd in players && |line.coefficients| == N + 1
      modifies this`players
      ensures (Contents(), expected) == OnHello(old(Contents()), fd, id, line)
    {
      var player := players[fd];
      if player.isKnown {
        return false;
      }
      player := player.(id := id);
      var delay, i := 0, 0;
      while i < |id|
        invariant 0 <= i <= |id| && delay == LowercaseLetters(id[..i])
      {
        assert id[..i + 1][..i] == id[..i];
        if 'a' <= id[i] <= 'z' {
          delay := delay + 1;
        }
        i := i + 1;
      }
      assert id[..i] == id;
      ghost var before := players;
      player := player.(delay := delay);
      player := player.(isKnown := true, canPut := true);
      player := player.(coefficients := line.coefficients);
      players := players[fd := player];
      AppendMessageBack(fd, Coeff(line));
      assert players == before[fd := player.Append(Coeff(line))];
      expected := true;
    }

    method RespondWithPenalty(fd: int, point: int, value: int)
      requires fd in players
      modifies this`players
      ensures Contents() == GivePenalty(old(Contents()), fd, point, value)
    {
      players := players[fd := players[fd].(penalty := players[fd].penalty + EARLY_PUT_PENALTY)];
      players := players[fd := players[fd].(canPut := true)];
      AppendMessageBack(fd, Penalty(point, value));
    }

    method RespondWithBadPut(fd: int, point: int, value: int, now: int)
      requires fd in players
      modifies this`players, eventManager
      ensures Contents() == GiveBadPut(old(Contents()), fd, point, value, now)
    {
      players := players[fd := players[fd].(penalty := players[fd].penalty + BAD_PUT_PENALTY)];
      eventManager.AddEvent(BadPutReply(players[fd].Who(fd), players[fd].id, point, value),
                            now + BAD_PUT_DELAY * SECOND);
    }

    method RespondWithState(fd: int, values: seq<int>, now: int)
      requires fd in players && values == players[fd].approximations
      modifies eventManager
      ensures Contents() == GiveState(old(Contents()), fd, now)
    {
      eventManager.AddEvent(StateReply(players[fd].Who(fd), players[fd].id, values), now + players[fd].delay * SECOND);
    }

    method HandlePut(fd: int, point: int, value: int, now: int) returns (expected: bool)
      requires fd in players && Wf(Contents())
      modifies this`players, this`totalCorrectPuts, this`stopping, eventManager
      ensures (Contents(), expected) == OnPut(old(Contents()), fd, point, value, now)
    {
      if !players[fd].isKnown {
        return false;
      }
      var successfulPut := true;
      if !players[fd].canPut {
        successfulPut := false;
        RespondWithPenalty(fd, point, value);
      }
      players := players[fd := players[fd].(canPut := false)];
      if OutOfRange(K, point, value) {
        successfulPut := false;
        RespondWithBadPut(fd, point, value, now);
      }
      if !successfulPut {
        return false;
      }
      AcceptPut(fd, point, value, now);
      if totalCorrectPuts >= M {
        GameOver();
      }
      expected := true;
    }

    /** The successful end of handle_put. */
    method AcceptPut(fd: int, point: int, value: int, now: int)
      requires fd in players && Wf(Contents()) && 0 <= point <= K
      modifies this`players, this`totalCorrectPuts, eventManager
      ensures Contents() == Accept(old(Contents()), fd, point, value, now) && Wf(Contents())
    {
      var player := players[fd];
      player := player.(correctPuts := player.correctPuts + 1);
      totalCorrectPuts := totalCorrectPuts + 1;
      player := player.(approximations := player.approximations[point := player.approximations[point] + value]);
      players := players[fd := player];
      RespondWithState(fd, player.approximations, now);
    }

    method HandleClientMessage(fd: int, request: Request, now: int) returns (expected: bool)
      requires fd in players && Wf(Contents()) && (request.Hello? ==> |request.line.coefficients| == N + 1)
      modifies this`players, this`totalCorrectPuts, this`stopping, eventManager
      ensures (Contents(), expected) == OnRequest(old(Contents()), fd, request, now)
    {
      match request {
        case Hello(id, line) => expected := HandleHello(fd, id, line);
        case PutValue(point, value) => expected := HandlePut(fd, point, value, now);
        case Other => expected := false;
      }
    }

    method CalculateScore(player: PlayerInfo) returns (score: int)
      requires |player.approximations| == K + 1
      ensures score == Score(K, player)
    {
      score := 0;
      var d := Differences(K, player);
      var x := 0;
      while x <= K
        invariant 0 <= x <= K + 1 && score == SquaredError(d[..x])
      {
        var realValue := PlayerPolyAt(player.coefficients, x);
        var approxValue := player.approximations[x];
        assert d[..x + 1][..x] == d[..x];
        score := score + (realValue - approxValue) * (realValue - approxValue);
        x := x + 1;
      }
      assert d[..x] == d;
      score := score + player.penalty * SCALE * SCALE;
    }

    method SendScoringMessages()
      requires Wf(Contents())
      modifies this`players
      ensures Contents() == EndGame(old(Contents())).(stopping := stopping)
    {
      var fds := Ascending(players.Keys);
      var rows := CollectScores(fds);
      SendToKnown(fds, Scoring(Sort(rows)));
    }

    method CollectScores(fds: seq<int>) returns (rows: seq<Row>)
      requires Wf(Contents()) && forall fd :: fd in fds ==> fd in players
      ensures rows == KnownRows(Contents(), fds)
    {
      rows := [];
      var i := 0;
      while i < |fds|
        invariant 0 <= i <= |fds| && rows == KnownRows(Contents(), fds[..i])
      {
        var fd := fds[i];
        assert fds[..i + 1][..i] == fds[..i] && fd in fds;
        if players[fd].isKnown {
          var score := CalculateScore(players[fd]);
          rows := rows + [Row(players[fd].id, score)];
        }
        i := i + 1;
      }
      assert fds[..i] == fds;
    }

    method SendToKnown(fds: seq<int>, r: Reply)
      requires forall fd :: fd in fds ==> fd in players
      modifies this`players
      ensures Contents() == old(Contents()).(players := Announce(old(players), fds, r))
    {
      var i := 0;
      while i < |fds|
        invariant 0 <= i <= |fds| && players == Announce(old(players), fds[..i], r)
      {
        var fd := fds[i];
        assert fds[..i + 1][..i] == fds[..i] && fd in fds;
        if players[fd].isKnown {
          AppendMessageBack(fd, r);
        }
        i := i + 1;
      }
      assert fds[..i] == fds;
    }

    method GameOver()
      requires Wf(Contents())
      modifies this`players, this`stopping
      ensures Contents() == EndGame(old(Contents()))
    {
      SendScoringMessages();
      stopping := true;
    }

    /** Runs the callback of one event. */
    method Call(event: Event)
      modifies this`players, this`totalCorrectPuts
      ensures Contents() == Fire(old(Contents()), event)
    {
      match event {
        case HelloTimeout(who) =>
          if !Validates(Contents(), who) {
            return;
          }
          if !players[who.fd].isKnown {
            HandleClientDisconnect(who.fd);
          }
        case BadPutReply(who, id, point, value) =>
          if !Validates(Contents(), who) || players[who.fd].id != id {
            return;
          }
          players := players[who.fd := players[who.fd].(canPut := true)];
          AppendMessageBack(who.fd, BadPut(point, value));
        case StateReply(who, id, values) =>
          if !Validates(Contents(), who) || players[who.fd].id != id {
            return;
          }
          AppendMessageBack(who.fd, State(values));
          players := players[who.fd := players[who.fd].(canPut := true)];
      }
    }

    /** EventManager::check_timers. */
    method CheckTimers(now: int)
      modifies this`players, this`totalCorrectPuts, eventManager
      ensures Contents() == RunTimers(old(Contents()), now)
    {
      while eventManager.events != [] && eventManager.events[0].due <= now
        invariant RunTimers(Contents(), now) == RunTimers(old(Contents()), now)
        decreases |eventManager.events|
      {
        Call(eventManager.events[0].event);
        eventManager.EraseFirst();
      }
    }

    method Reset()
      modifies this, eventManager
      ensures Contents() == ResetGame(old(Contents()))
    {
      eventManager.Reset();
      totalCorrectPuts := 0;
      players := map[];
      stopping := false;
    }
  }
}
