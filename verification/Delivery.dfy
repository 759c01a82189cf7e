/** The server, the text protocol and the connection together: every reply the server queues
    has a text its client reads back (the-great-approximator/server_logic.cpp, msg_parser.cpp,
    approx-server.cpp:137-169, client_logic.cpp:172-205). */
module Delivery {
  import opened Wrappers

  import opened Descriptors
  import opened Events
  import opened Rows
  import opened Server
  import opened ServerRuns
  import C = Channel
  import F = Framing
  import M = Messages
  import P = Params
  import T = Totals

  // ----- Requests and replies as messages

  /** A parsed message as the server handles it; a HELLO takes a line of the file with it. */
  function AsRequest(m: M.Message, line: FileLine): Request {
    match m
    case Hello(id) => Hello(id, line)
    case Put(point, value) => PutValue(point, value)
    case _ => Other
  }

  /** The line of the file is a COEFF message with these numbers; handle_hello gives up on any
      other. */
  predicate LineOk(line: FileLine) {
    M.ParseLine(line.raw) == Some(M.Coeff(line.coefficients))
  }

  predicate RequestOk(r: Request) {
    match r
    case Hello(id, line) => M.IsId(id) && LineOk(line)
    case PutValue(point, _) => M.IsPoint(point)
    case Other => true
  }

  predicate ReplyOk(r: Reply) {
    match r
    case Coeff(line) => LineOk(line)
    case State(values) => 1 <= |values| <= M.MAX_K + 1
    case BadPut(point, _) => M.IsPoint(point)
    case Penalty(point, _) => M.IsPoint(point)
    case Scoring(rows) => M.AllIds(rows)
  }

  /** Whatever the parser accepts is a request the server can take. */
  lemma ParsedRequestOk(text: string, line: FileLine)
    requires M.ParseLine(text).Some? && LineOk(line)
    ensures RequestOk(AsRequest(M.ParseLine(text).value, line))
  {
    M.ParsedIsValid(text);
  }

  /** The scores of SCORING are rounded to the lattice when they are printed, after the rows
      have been put in order. */
  function Rounded(rows: seq<Row>, round: int -> int): (r: seq<Row>)
    ensures |r| == |rows| && forall i :: 0 <= i < |rows| ==> r[i] == Row(rows[i].id, round(rows[i].score))
  {
    seq(|rows|, i requires 0 <= i < |rows| => Row(rows[i].id, round(rows[i].score)))
  }

  function AsMessage(r: Reply, round: int -> int): M.Message {
    match r
    case Coeff(line) => M.Coeff(line.coefficients)
    case State(values) => M.State(values)
    case BadPut(point, value) => M.BadPut(point, value)
    case Penalty(point, value) => M.Penalty(point, value)
    case Scoring(rows) => M.Scoring(Rounded(rows, round))
  }

  /** The line the server queues: COEFF is the raw line of the file, every other reply is
      printed. */
  function LineOf(r: Reply, round: int -> int): string {
    var m := AsMessage(r, round);
    if r.Coeff? then r.line.raw else P.Line(M.Command(m.Type()), M.ParamsOf(m)) + F.CRLF
  }

  lemma RowsStayValid(rows: seq<Row>, round: int -> int)
    requires M.AllIds(rows)
    ensures M.AllIds(Rounded(rows, round))
  {
    forall i | 0 <= i < |rows|
      ensures M.IsId(Rounded(rows, round)[i].id)
    {
      assert M.IsId(rows[i].id);
    }
  }

  /** The line of a reply is read back. */
  lemma ReplyReadsBack(r: Reply, round: int -> int)
    requires ReplyOk(r)
    ensures M.ParseLine(LineOf(r, round)) == Some(AsMessage(r, round))
  {
    if !r.Coeff? {
      if r.Scoring? {
        RowsStayValid(r.rows, round);
      }
      var m := AsMessage(r, round);
      M.ParamsReadBack(m);
      M.LineReadsBack(m.Type(), M.ParamsOf(m));
    }
  }

  // ----- The server queues only such replies

  ghost predicate PlayerClean(p: PlayerInfo) {
    (p.isKnown ==> M.IsId(p.id)) && forall i :: 0 <= i < |p.queued| ==> ReplyOk(p.queued[i])
  }

  predicate EventClean(e: Event) {
    match e
    case HelloTimeout(_) => true
    case BadPutReply(_, _, point, _) => M.IsPoint(point)
    case StateReply(_, _, values) => 1 <= |values| <= M.MAX_K + 1
  }

  ghost predicate PlayersClean(players: map<int, PlayerInfo>) {
    forall fd :: fd in players ==> PlayerClean(players[fd])
  }

  ghost predicate EventsClean(es: seq<Timed<Event>>) {
    forall x :: x in es ==> EventClean(x.event)
  }

  ghost predicate Clean(s: Server) {
    s.K <= M.MAX_K && PlayersClean(s.players) && EventsClean(s.events)
  }

  lemma ScheduleKeeps(s: Server, e: Event, due: int)
    requires Clean(s) && EventClean(e)
    ensures Clean(Schedule(s, e, due))
  {
    InsertMembers(s.events, Timed(due, e));
  }

  lemma UpdateKeeps(s: Server, fd: int, p: PlayerInfo)
    requires Clean(s) && PlayerClean(p)
    ensures Clean(Update(s, fd, p))
  {
  }

  /** PENALTY is queued, or BAD_PUT scheduled, with the point of the put. */
  lemma RefusedKeeps(s: Server, fd: int, outside: bool, point: int, value: int, now: int)
    requires Clean(s) && fd in s.players && M.IsPoint(point)
    ensures Clean(RefusedServer(s, fd, outside, point, value, now))
  {
    var p := s.players[fd];
    assert PlayerClean(p);
    assert PlayerClean(Refused(p, outside, point, value));
    if outside {
      InsertMembers(s.events, BadEvent(p, fd, point, value, now));
    }
  }

  /** STATE is scheduled with K + 1 values. */
  lemma AdvancedKeeps(s: Server, fd: int, point: int, value: int, now: int)
    requires Clean(s) && Wf(s) && fd in s.players && 0 <= point <= s.K
    ensures |s.players[fd].approximations| == s.K + 1 && Clean(AdvancedServer(s, fd, point, value, now))
  {
    assert PlayerClean(s.players[fd]) && PlayerWf(s, s.players[fd]);
    var p := Advanced(s.players[fd], point, value);
    assert PlayerClean(p);
    InsertMembers(s.events, StateEvent(p, fd, now));
  }

  lemma {:induction false} RowsHaveIds(s: Server, fds: seq<int>)
    requires Wf(s) && PlayersClean(s.players) && forall fd :: fd in fds ==> fd in s.players
    ensures M.AllIds(KnownRows(s, fds))
  {
    if fds != [] {
      var fd := fds[|fds| - 1];
      RowsHaveIds(s, fds[..|fds| - 1]);
      assert fd in fds && fd in s.players;
      assert PlayerClean(s.players[fd]);
    }
  }

  lemma {:induction false} AnnounceKeeps(players: map<int, PlayerInfo>, fds: seq<int>, r: Reply)
    requires PlayersClean(players) && ReplyOk(r) && forall fd :: fd in fds ==> fd in players
    ensures PlayersClean(Announce(players, fds, r))
  {
    if fds != [] {
      AnnounceKeeps(players, fds[..|fds| - 1], r);
    }
  }

  lemma EndGameKeeps(s: Server)
    requires Clean(s) && Wf(s)
    ensures Clean(EndGame(s))
  {
    var fds := Ascending(s.players.Keys);
    var rows := KnownRows(s, fds);
    RowsHaveIds(s, fds);
    M.PermutedIds(rows, Sort(rows));
    AnnounceKeeps(s.players, fds, Scoring(Sort(rows)));
  }

  lemma HelloKeeps(s: Server, fd: int, id: string, line: FileLine)
    requires Clean(s) && fd in s.players && M.IsId(id) && LineOk(line)
    ensures Clean(OnHello(s, fd, id, line).0)
  {
    assert PlayerClean(s.players[fd]);
    UpdateKeeps(s, fd, OnHello(s, fd, id, line).0.players[fd]);
  }

  lemma AcceptedKeeps(s: Server, fd: int, point: int, value: int, now: int)
    requires Clean(s) && Wf(s) && fd in s.players && s.players[fd].isKnown
    requires s.players[fd].canPut && !OutOfRange(s.K, point, value)
    ensures Clean(Receive(s, fd, PutValue(point, value), now))
  {
    AcceptedPut(s, fd, point, value, now);
    AdvancedKeeps(s, fd, point, value, now);
    var r := AdvancedServer(s, fd, point, value, now);
    if r.total >= r.M {
      EndGameKeeps(r);
    }
  }

  lemma ReceiveKeeps(s: Server, fd: int, request: Request, now: int)
    requires Clean(s) && Wf(s) && fd in s.players && RequestOk(request)
    ensures Clean(Receive(s, fd, request, now))
  {
    var p := s.players[fd];
    if Ignored(p, request) {
      IgnoredIs(s, fd, request, now);
    } else if request.Hello? {
      T.HelloReceived(s, fd, request.id, request.line, now);
      HelloKeeps(s, fd, request.id, request.line);
    } else if p.canPut && !OutOfRange(s.K, request.point, request.value) {
      AcceptedKeeps(s, fd, request.point, request.value, now);
    } else {
      RefusedPut(s, fd, request.point, request.value, now);
      RefusedKeeps(s, fd, OutOfRange(s.K, request.point, request.value), request.point, request.value, now);
    }
  }

  lemma FireKeeps(s: Server)
    requires Clean(s) && s.events != []
    ensures Clean(FireFirst(s))
  {
    var e := s.events[0].event;
    assert s.events[0] in s.events && EventClean(e);
    if Validates(s, e.who) {
      assert PlayerClean(s.players[e.who.fd]);
    }
    assert PlayersClean(Fire(s, e).players);
  }

  lemma {:induction false} TimersKeep(s: Server, now: int)
    requires Clean(s)
    ensures Clean(RunTimers(s, now))
    decreases |s.events|
  {
    if Due(s, now) {
      FireKeeps(s);
      TimersKeep(FireFirst(s), now);
    }
  }

  lemma StepKeeps(s: Server, step: Step, now: int)
    requires Possible(s, step) && Clean(s) && (step.Message? ==> RequestOk(step.request))
    ensures Clean(T.After(s, step, now))
  {
    match step
    case Connect(who) =>
      var p := NewPlayer(s.K, s.N, who);
      UpdateKeeps(s, who.fd, p);
      ScheduleKeeps(Update(s, who.fd, p), HelloTimeout(who), now + HELLO_WAIT_TIME * SECOND);
    case Message(fd, request) => ReceiveKeeps(s, fd, request, now);
    case Leave(fd) =>
    case Tick => TimersKeep(s, now);
    case Take(fd) =>
      assert PlayerClean(s.players[fd]);
      UpdateKeeps(s, fd, s.players[fd].TakeFront());
    case NewGame =>
  }

  lemma {:induction false} RunKeeps(servers: seq<Server>, steps: seq<Step>, nows: seq<int>)
    requires T.IsServerRun(servers, steps, nows) && servers[0].K <= M.MAX_K
    requires forall k :: 0 <= k < |steps| ==> steps[k].Message? ==> RequestOk(steps[k].request)
    ensures Clean(servers[|steps|])
    decreases |steps|
  {
    if steps != [] {
      var k := |steps| - 1;
      assert T.IsServerRun(servers[..|steps|], steps[..k], nows[..k]);
      RunKeeps(servers[..|steps|], steps[..k], nows[..k]);
      StepKeeps(servers[k], steps[k], nows[k]);
    }
  }

  /** In every game, whatever the players do, and over every connection, however the sends are
      cut and the chunks arrive: the client parses a prefix of the replies the server queued
      for it, in order and with equal contents, and all of them if the connection runs dry. */
  lemma RepliesArrive(servers: seq<Server>, steps: seq<Step>, nows: seq<int>, fd: int, round: int -> int,
                      links: seq<C.Link>, moves: seq<C.Step>, k: nat)
    requires T.IsServerRun(servers, steps, nows) && servers[0].K <= M.MAX_K
    requires forall j :: 0 <= j < |steps| ==> steps[j].Message? ==> RequestOk(steps[j].request)
    requires fd in servers[|steps|].players && C.IsRun(links, moves) && k <= |moves|
    requires var q := servers[|steps|].players[fd].queued;
             |links[k].queued| == |q| && forall i :: 0 <= i < |q| ==> links[k].queued[i] == LineOf(q[i], round)
    ensures var q := servers[|steps|].players[fd].queued;
            var box := links[k].box;
            && !box.failed && |box.incoming| <= |q|
            && (forall i :: 0 <= i < |box.incoming| ==> box.incoming[i] == AsMessage(q[i], round))
            && (links[k].messages == [] && links[k].wire == "" ==> |box.incoming| == |q|)
  {
    RunKeeps(servers, steps, nows);
    var q := servers[|steps|].players[fd].queued;
    assert PlayerClean(servers[|steps|].players[fd]);
    var ms := seq(|q|, i requires 0 <= i < |q| => AsMessage(q[i], round));
    forall i | 0 <= i < |ms|
      ensures M.ParseLine(links[k].queued[i]) == Some(ms[i])
    {
      ReplyReadsBack(q[i], round);
    }
    C.MessagesArrive(links, moves, k, ms);
  }
}
