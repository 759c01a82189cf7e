/** The session of the automatic client carried over two connections: texts, queues with
    partial sends and buffers filled in arbitrary chunks stand between the client and the
    server, in both directions (the-great-approximator/approx-server.cpp:92-169,
    client_logic.cpp:172-294).

    Every run of this system is a session, so that what is proved of sessions holds of it. */
module Network {
  import opened Wrappers
  import opened Greedy
  import opened Server
  import opened AutoClient
  import C = Channel
  import D = Delivery
  import F = Framing
  import L = Players
  import M = Messages
  import R = ServerRuns
  import S = Session
  import T = Totals

  /** `up` leads to the server and `down` to the client.  The server has handled some of the
      lines it has cut from `up`, the client some of the messages it has parsed from `down`.
      `sent` records what the client has sent. */
  datatype Net = Net(g: R.Game, c: Client, sent: seq<S.ToServer>, up: C.Link, handled: nat,
                     down: C.Link, processed: nat)

  datatype Move =
    | ServerMove(step: R.Step, now: int)     // anything but handling this client's lines
    | ServerReads(line: FileLine, now: int)  // the server handles the next line it has cut
    | ClientHandles                          // the processor handles the next parsed message
    | ClaimPut | ChoosePut | Dispatch        // the three actions of the strategy thread
    | UpBytes(bytes: C.Step)                 // sends and receives on the way to the server
    | DownBytes(bytes: C.Step)               // and on the way to the client

  // ----- Texts

  function AsSent(m: S.ToServer): M.Message {
    match m
    case SendHello(id) => M.Hello(id)
    case SendPut(put) => M.Put(put.point, put.value)
  }

  function Printed(m: S.ToServer): string {
    M.Text(AsSent(m))
  }

  /** A line that is not a message counts as a message the server refuses. */
  function RequestOf(text: string, line: FileLine): Request {
    var m := M.ParseLine(text);
    if m.Some? then D.AsRequest(m.value, line) else Other
  }

  /** The message processor on a parsed message; the parser accepts no STATE without values. */
  function Processed(c: Client, m: M.Message): Client {
    match m
    case Coeff(values) => Process(c, Coeff(FileLine("", values)))
    case State(values) => if values == [] then c else Process(c, State(values))
    case BadPut(point, value) => Process(c, BadPut(point, value))
    case Penalty(point, value) => Process(c, Penalty(point, value))
    case Scoring(rows) => Process(c, Scoring(rows))
    case _ => if c.isFirstMessage then c.(isFirstMessage := false, failed := true) else c
  }

  // ----- Runs

  predicate Alive(who: Identity, n: Net) {
    who.fd in n.g.s.players && n.g.s.players[who.fd].Who(who.fd) == who
  }

  /** Sending and receiving on a connection; queueing is what the two programs do. */
  ghost predicate BytesMove(link: C.Link, step: C.Step) {
    !step.Queue? && C.Enabled(link, step)
  }

  ghost predicate Enabled(who: Identity, n: Net, m: Move) {
    match m
    case ServerMove(step, now) =>
      && R.Enabled(n.g, step, now) && !step.NewGame? && (step.Message? ==> D.RequestOk(step.request))
      && (Alive(who, n) ==> !(step.Message? && step.fd == who.fd) && !(step.Leave? && step.fd == who.fd))
    case ServerReads(line, now) =>
      && Alive(who, n) && n.handled < |n.up.lines| && D.LineOk(line)
      && R.Enabled(n.g, R.Message(who.fd, RequestOf(n.up.lines[n.handled], line)), now)
    case ClientHandles =>
      Alive(who, n) && !n.c.gameOver && !n.c.failed && n.processed < |n.down.box.incoming|
    case ClaimPut => CanClaim(n.c) && !n.c.failed
    case ChoosePut => n.c.at == Claimed && !n.c.failed
    case Dispatch => n.c.at.Chosen? && !n.c.failed
    case UpBytes(step) => BytesMove(n.up, step)
    case DownBytes(step) => BytesMove(n.down, step)
  }

  /** Taking a message puts its line on the way to the client. */
  function Sending(who: Identity, n: Net, step: R.Step, round: int -> int): C.Link {
    if step == R.Take(who.fd) && Alive(who, n) && n.g.s.players[who.fd].taken < |n.g.s.players[who.fd].queued|
    then n.down.Queue(D.LineOf(n.g.s.players[who.fd].queued[n.g.s.players[who.fd].taken], round))
    else n.down
  }

  ghost function Apply(who: Identity, n: Net, m: Move, round: int -> int): Net
    requires Enabled(who, n, m)
  {
    match m
    case ServerMove(step, now) => n.(g := R.Apply(n.g, step, now), down := Sending(who, n, step, round))
    case ServerReads(line, now) =>
      n.(g := R.Apply(n.g, R.Message(who.fd, RequestOf(n.up.lines[n.handled], line)), now), handled := n.handled + 1)
    case ClientHandles => n.(c := Processed(n.c, n.down.box.incoming[n.processed]), processed := n.processed + 1)
    case ClaimPut => n.(c := Claim(n.c))
    case ChoosePut => n.(c := S.Choose(n.c))
    case Dispatch =>
      var m := S.SendPut(n.c.at.put);
      n.(c := n.c.(at := Waiting), sent := n.sent + [m], up := n.up.Queue(Printed(m)))
    case UpBytes(step) => n.(up := C.Apply(n.up, step))
    case DownBytes(step) => n.(down := C.Apply(n.down, step))
  }

  /** The client has sent its HELLO; the server has just accepted the connection, in a game
      of at most K = 10000 points in which every client sends what its parser accepts. */
  ghost predicate Begins(who: Identity, id: string, games: seq<R.Game>, steps: seq<R.Step>, n: Net) {
    && n == Net(n.g, Fresh, [S.SendHello(id)], C.IDLE.Queue(Printed(S.SendHello(id))), 0, C.IDLE, 0)
    && M.IsId(id) && S.Begins(who, id, games, steps, Abstract(n))
    && games[0].s.K <= M.MAX_K && forall k :: 0 <= k < |steps| ==> steps[k].Message? ==> D.RequestOk(steps[k].request)
  }

  ghost predicate IsRun(who: Identity, id: string, games: seq<R.Game>, steps: seq<R.Step>, round: int -> int,
                        nets: seq<Net>, moves: seq<Move>) {
    && |nets| == |moves| + 1 && Begins(who, id, games, steps, nets[0])
    && forall k :: 0 <= k < |moves| ==>
         Enabled(who, nets[k], moves[k]) && nets[k + 1] == Apply(who, nets[k], moves[k], round)
  }

  // ----- The session behind a state of the network

  /** What the client has sent and the server has not handled is on its way. */
  function Abstract(n: Net): S.Session {
    S.Session(n.g, n.c, if n.handled <= |n.sent| then n.sent[n.handled..] else [], n.processed)
  }

  function AbstractMove(m: Move): Option<S.Move> {
    match m
    case ServerMove(step, now) => Some(S.ServerMove(step, now))
    case ServerReads(line, now) => Some(S.Read(line, now))
    case ClientHandles => Some(S.Handle)
    case ClaimPut => Some(S.ClaimPut)
    case ChoosePut => Some(S.ChoosePut)
    case Dispatch => Some(S.Dispatch)
    case _ => None
  }

  /** The connection to the server carries the texts of what the client has sent. */
  ghost predicate UpOk(n: Net) {
    && C.Inv(n.up) && n.handled <= |n.up.lines| && |n.up.queued| == |n.sent|
    && forall i :: 0 <= i < |n.sent| ==> M.Valid(AsSent(n.sent[i])) && n.up.queued[i] == Printed(n.sent[i])
  }

  /** These are the lines of the messages the server has taken. */
  ghost predicate Carries(lines: seq<string>, p: PlayerInfo, round: int -> int) {
    && |lines| == p.taken <= |p.queued|
    && forall i :: 0 <= i < p.taken ==> lines[i] == D.LineOf(p.queued[i], round)
  }

  ghost predicate DownOk(down: C.Link, p: PlayerInfo, processed: nat, round: int -> int) {
    C.Inv(down) && processed <= |down.box.incoming| && Carries(down.queued, p, round)
  }

  ghost predicate Inv(who: Identity, n: Net, round: int -> int) {
    && n.handled <= |n.sent| && D.Clean(n.g.s)
    && (Alive(who, n) ==> UpOk(n) && DownOk(n.down, n.g.s.players[who.fd], n.processed, round))
  }

  // ----- What arrives

  lemma SentReadsBack(m: S.ToServer)
    requires M.Valid(AsSent(m))
    ensures M.ParseLine(Printed(m)) == Some(AsSent(m))
  {
    M.RoundTrip(AsSent(m));
  }

  function Messages(sent: seq<S.ToServer>): (ms: seq<M.Message>)
    ensures |ms| == |sent| && forall i :: 0 <= i < |ms| ==> ms[i] == AsSent(sent[i])
  {
    seq(|sent|, i requires 0 <= i < |sent| => AsSent(sent[i]))
  }

  /** The lines the server has cut are those the client has sent, and each of them is parsed
      as the request it stands for. */
  lemma RequestArrives(n: Net, i: nat, line: FileLine)
    requires UpOk(n) && i < |n.up.lines|
    ensures i < |n.sent| && RequestOf(n.up.lines[i], line) == S.ToRequest(n.sent[i], line)
  {
    C.LinesCut(n.up);
    SentReadsBack(n.sent[i]);
  }

  /** What the client has parsed are the replies the server has taken from its queue. */
  lemma RepliesParsed(down: C.Link, p: PlayerInfo, processed: nat, round: int -> int)
    requires DownOk(down, p, processed, round) && D.PlayerClean(p)
    ensures !down.box.failed && |down.box.incoming| <= p.taken
    ensures forall i :: 0 <= i < |down.box.incoming| ==> down.box.incoming[i] == D.AsMessage(p.queued[i], round)
  {
    var ms := seq(p.taken, i requires 0 <= i < p.taken <= |p.queued| => D.AsMessage(p.queued[i], round));
    forall i | 0 <= i < p.taken
      ensures M.ParseLine(down.queued[i]) == Some(ms[i])
    {
      D.ReplyReadsBack(p.queued[i], round);
    }
    C.MessagesCut(down, ms);
  }

  /** The client does with a parsed reply what it would do with the reply itself. */
  lemma ProcessedIs(c: Client, r: Reply, round: int -> int)
    requires D.ReplyOk(r)
    ensures S.Readable(r) && Processed(c, D.AsMessage(r, round)) == Process(c, r)
  {
  }

  // ----- Moves of the server

  lemma StillDown(down: C.Link, p: PlayerInfo, q: PlayerInfo, processed: nat, round: int -> int)
    requires DownOk(down, p, processed, round) && L.Continues(p, q)
    ensures DownOk(down, q, processed, round)
  {
  }

  lemma ReplyIsLine(r: Reply, round: int -> int)
    requires D.ReplyOk(r)
    ensures F.IsLine(D.LineOf(r, round))
  {
    D.ReplyReadsBack(r, round);
    C.AcceptedIsLine(D.LineOf(r, round));
  }

  lemma TakenCarries(lines: seq<string>, p: PlayerInfo, line: string, round: int -> int)
    requires Carries(lines, p, round) && p.taken < |p.queued| && line == D.LineOf(p.queued[p.taken], round)
    ensures Carries(lines + [line], p.TakeFront(), round)
  {
    forall i | 0 <= i < p.taken + 1
      ensures (lines + [line])[i] == D.LineOf(p.queued[i], round)
    {
      assert (lines + [line])[i] == if i < |lines| then lines[i] else line;
    }
  }

  /** Taking a message queues one line, which the channel accepts. */
  lemma TakenDown(down: C.Link, p: PlayerInfo, processed: nat, round: int -> int)
    requires DownOk(down, p, processed, round) && p.taken < |p.queued| && D.ReplyOk(p.queued[p.taken])
    ensures DownOk(down.Queue(D.LineOf(p.queued[p.taken], round)), p.TakeFront(), processed, round)
  {
    ReplyIsLine(p.queued[p.taken], round);
    TakenCarries(down.queued, p, D.LineOf(p.queued[p.taken], round), round);
    C.QueueKeeps(down, D.LineOf(p.queued[p.taken], round));
  }

  lemma CleanAfter(g: R.Game, step: R.Step, now: int)
    requires R.Enabled(g, step, now) && D.Clean(g.s) && (step.Message? ==> D.RequestOk(step.request))
    ensures D.Clean(R.Apply(g, step, now).s)
  {
    T.ApplyIsAfter(g, step, now);
    D.StepKeeps(g.s, step, now);
  }

  /** What a step of the server other than handling this client's lines does to the
      connection to the client. */
  lemma ServerKeepsDown(who: Identity, n: Net, step: R.Step, now: int, round: int -> int)
    requires Inv(who, n, round) && Enabled(who, n, ServerMove(step, now)) && Alive(who, n)
    requires Alive(who, Apply(who, n, ServerMove(step, now), round))
    ensures var r := Apply(who, n, ServerMove(step, now), round);
            DownOk(r.down, r.g.s.players[who.fd], r.processed, round)
  {
    var p := n.g.s.players[who.fd];
    assert D.PlayerClean(p);
    if step == R.Take(who.fd) {
      TakenDown(n.down, p, n.processed, round);
    } else {
      T.ApplyIsAfter(n.g, step, now);
      L.StepPlayer(n.g.s, step, now, who.fd);
      StillDown(n.down, p, R.Apply(n.g, step, now).s.players[who.fd], n.processed, round);
    }
  }

  // ----- Every move refines a move of the session, or none

  ghost predicate Refines(who: Identity, n: Net, m: Move, r: Net) {
    var a := AbstractMove(m);
    if a.None? then Abstract(r) == Abstract(n)
    else S.Enabled(who, Abstract(n), a.value) && Abstract(r) == S.Apply(who, Abstract(n), a.value)
  }

  lemma FirstOnItsWay(sent: seq<S.ToServer>, i: nat)
    requires i < |sent|
    ensures sent[i..] == [sent[i]] + sent[i + 1..]
  {
  }

  lemma ServerReadsRefines(who: Identity, n: Net, line: FileLine, now: int, round: int -> int)
    requires Enabled(who, n, ServerReads(line, now)) && n.handled < |n.sent|
    requires n.sent[n.handled..] == [n.sent[n.handled]] + n.sent[n.handled + 1..]
    requires RequestOf(n.up.lines[n.handled], line) == S.ToRequest(n.sent[n.handled], line)
    ensures Refines(who, n, ServerReads(line, now), Apply(who, n, ServerReads(line, now), round))
  {
  }

  /** The next message is the next reply. */
  lemma NextReply(c: Client, down: C.Link, p: PlayerInfo, processed: nat, round: int -> int)
    requires DownOk(down, p, processed, round) && D.PlayerClean(p) && processed < |down.box.incoming|
    ensures processed < p.taken <= |p.queued| && S.Readable(p.queued[processed])
    ensures Processed(c, down.box.incoming[processed]) == Process(c, p.queued[processed])
  {
    RepliesParsed(down, p, processed, round);
    ProcessedIs(c, p.queued[processed], round);
  }

  lemma ClientHandlesRefines(who: Identity, n: Net, round: int -> int)
    requires Enabled(who, n, ClientHandles)
    requires var p := n.g.s.players[who.fd];
             && n.processed < p.taken <= |p.queued| && S.Readable(p.queued[n.processed])
             && Processed(n.c, n.down.box.incoming[n.processed]) == Process(n.c, p.queued[n.processed])
    ensures Refines(who, n, ClientHandles, Apply(who, n, ClientHandles, round))
  {
  }

  lemma DispatchRefines(who: Identity, n: Net, round: int -> int)
    requires n.handled <= |n.sent| && Enabled(who, n, Dispatch)
    ensures Refines(who, n, Dispatch, Apply(who, n, Dispatch, round))
  {
    var put := S.SendPut(n.c.at.put);
    assert (n.sent + [put])[n.handled..] == n.sent[n.handled..] + [put];
  }

  /** The other moves do to the session what they do to the network. */
  lemma OtherRefines(who: Identity, n: Net, m: Move, round: int -> int)
    requires Enabled(who, n, m) && !m.ServerReads? && !m.ClientHandles? && !m.Dispatch?
    ensures Refines(who, n, m, Apply(who, n, m, round))
  {
  }

  lemma MoveRefines(who: Identity, n: Net, m: Move, round: int -> int)
    requires Inv(who, n, round) && Enabled(who, n, m)
    ensures Refines(who, n, m, Apply(who, n, m, round))
  {
    match m
    case ServerReads(line, now) =>
      RequestArrives(n, n.handled, line);
      FirstOnItsWay(n.sent, n.handled);
      ServerReadsRefines(who, n, line, now, round);
    case ClientHandles =>
      var p := n.g.s.players[who.fd];
      assert D.PlayerClean(p);
      NextReply(n.c, n.down, p, n.processed, round);
      ClientHandlesRefines(who, n, round);
    case Dispatch => DispatchRefines(who, n, round);
    case _ => OtherRefines(who, n, m, round);
  }

  // ----- Every move keeps the invariant

  /** The put the client has chosen is at a point that PUT can name. */
  lemma ChosenIsValid(K: nat, stopping: bool, v: R.View, c: Client, toServer: seq<S.ToServer>, processed: nat)
    requires S.Linked(K, stopping, v, c, toServer, processed) && c.at.Chosen? && K <= M.MAX_K
    ensures M.Valid(AsSent(S.SendPut(c.at.put)))
  {
    S.AgreesGives(K, v.p, c, c.at.put);
    S.NextPutLegal(K, Differences(K, v.p), v.p.correctPuts);
  }

  lemma SentUp(n: Net, m: S.ToServer)
    requires UpOk(n) && M.Valid(AsSent(m))
    ensures UpOk(n.(sent := n.sent + [m], up := n.up.Queue(Printed(m))))
  {
    C.TextIsLine(AsSent(m));
    C.QueueKeeps(n.up, Printed(m));
  }

  lemma BytesKeep(link: C.Link, step: C.Step)
    requires C.Inv(link) && BytesMove(link, step)
    ensures var r := C.Apply(link, step); C.Inv(r) && r.queued == link.queued && link.lines <= r.lines
  {
    match step
    case Send(accepted) => C.SendKeeps(link, accepted);
    case Receive(size) => C.ReceiveKeeps(link, size);
  }

  /** Receiving bytes only adds to what has been parsed. */
  lemma {:induction false} InboxGrows(box: C.Inbox, lines: seq<string>)
    ensures box.incoming <= C.TakeLines(box, lines).incoming
    decreases |lines|
  {
    if lines != [] {
      InboxGrows(C.TakeLine(box, lines[0]), lines[1..]);
    }
  }

  lemma UpBytesKeep(n: Net, step: C.Step)
    requires UpOk(n) && BytesMove(n.up, step)
    ensures UpOk(n.(up := C.Apply(n.up, step)))
  {
    BytesKeep(n.up, step);
  }

  lemma DownBytesKeep(down: C.Link, step: C.Step, p: PlayerInfo, processed: nat, round: int -> int)
    requires DownOk(down, p, processed, round) && BytesMove(down, step)
    ensures DownOk(C.Apply(down, step), p, processed, round)
  {
    BytesKeep(down, step);
    if step.Receive? {
      InboxGrows(down.box, F.Frame(down.recvBuffer + down.wire[..step.size]).0);
    }
  }

  /** A connection that has ended does not come back. */
  lemma NobodyReturns(who: Identity, n: Net, step: R.Step, now: int)
    requires R.Inv(n.g) && who in n.g.used && R.Enabled(n.g, step, now) && !step.NewGame?
    requires S.Alive(who, Abstract(n).(g := R.Apply(n.g, step, now)))
    ensures Alive(who, n)
  {
    if step.Tick? {
      L.TimersPlayer(n.g.s, now, who.fd);
    } else if !Alive(who, n) {
      S.StaysDead(who, Abstract(n), step, now);
    }
  }

  lemma ServerMoveKeeps(who: Identity, n: Net, step: R.Step, now: int, round: int -> int)
    requires Inv(who, n, round) && Enabled(who, n, ServerMove(step, now))
    requires R.Inv(n.g) && who in n.g.used
    ensures Inv(who, Apply(who, n, ServerMove(step, now), round), round)
  {
    CleanAfter(n.g, step, now);
    if Alive(who, Apply(who, n, ServerMove(step, now), round)) {
      NobodyReturns(who, n, step, now);
      ServerKeepsDown(who, n, step, now, round);
    }
  }

  lemma ParsedRequestOk(text: string, line: FileLine)
    requires D.LineOk(line)
    ensures D.RequestOk(RequestOf(text, line))
  {
    if M.ParseLine(text).Some? {
      D.ParsedRequestOk(text, line);
    }
  }

  lemma ServerReadsKeeps(who: Identity, n: Net, line: FileLine, now: int, round: int -> int)
    requires Inv(who, n, round) && Enabled(who, n, ServerReads(line, now))
    ensures Inv(who, Apply(who, n, ServerReads(line, now), round), round)
  {
    var step := R.Message(who.fd, RequestOf(n.up.lines[n.handled], line));
    RequestArrives(n, n.handled, line);
    ParsedRequestOk(n.up.lines[n.handled], line);
    CleanAfter(n.g, step, now);
    if who.fd in R.Apply(n.g, step, now).s.players {
      T.ApplyIsAfter(n.g, step, now);
      L.StepPlayer(n.g.s, step, now, who.fd);
      StillDown(n.down, n.g.s.players[who.fd], R.Apply(n.g, step, now).s.players[who.fd], n.processed, round);
    }
  }

  lemma MoveKeeps(who: Identity, n: Net, m: Move, round: int -> int)
    requires Inv(who, n, round) && Enabled(who, n, m) && S.SessionInv(who, Abstract(n))
    ensures Inv(who, Apply(who, n, m, round), round)
  {
    match m
    case ServerMove(step, now) => ServerMoveKeeps(who, n, step, now, round);
    case ServerReads(line, now) => ServerReadsKeeps(who, n, line, now, round);
    case Dispatch =>
      if Alive(who, n) {
        ChosenIsValid(n.g.s.K, n.g.s.stopping, R.ViewOf(n.g, who.fd), n.c, Abstract(n).toServer, n.processed);
        SentUp(n, S.SendPut(n.c.at.put));
      }
    case UpBytes(step) =>
      if Alive(who, n) {
        UpBytesKeep(n, step);
      }
    case DownBytes(step) =>
      if Alive(who, n) {
        DownBytesKeep(n.down, step, n.g.s.players[who.fd], n.processed, round);
      }
    case _ =>
  }

  lemma BeginsKeep(who: Identity, id: string, games: seq<R.Game>, steps: seq<R.Step>, n: Net, round: int -> int)
    requires Begins(who, id, games, steps, n)
    ensures Inv(who, n, round)
  {
    T.GamesAreServerRuns(games, steps);
    D.RunKeeps(T.ServersOf(games), steps, T.InstantsOf(games));
    var k := |steps| - 1;
    assert R.Enabled(games[k], steps[k], games[k + 1].now);
    assert n.g == R.Apply(games[k], steps[k], games[k + 1].now);
    assert n.g.s.players[who.fd] == NewPlayer(n.g.s.K, n.g.s.N, who);
    C.TextIsLine(M.Hello(id));
    C.QueueKeeps(C.IDLE, Printed(S.SendHello(id)));
  }

  lemma SessionExtends(who: Identity, id: string, games: seq<R.Game>, steps: seq<R.Step>,
                       xs: seq<S.Session>, ms: seq<S.Move>, m: S.Move)
    requires S.IsSession(who, id, games, steps, xs, ms) && S.Enabled(who, xs[|ms|], m)
    ensures S.IsSession(who, id, games, steps, xs + [S.Apply(who, xs[|ms|], m)], ms + [m])
  {
    var ys, ns := xs + [S.Apply(who, xs[|ms|], m)], ms + [m];
    forall k | 0 <= k < |ns|
      ensures S.Enabled(who, ys[k], ns[k]) && ys[k + 1] == S.Apply(who, ys[k], ns[k])
    {
      assert ys[k] == xs[k] && (k < |ms| ==> ys[k + 1] == xs[k + 1] && ns[k] == ms[k]);
    }
  }

  /** A move of the network extends a session by one move or none. */
  lemma OneMoreMove(who: Identity, id: string, games: seq<R.Game>, steps: seq<R.Step>,
                    xs: seq<S.Session>, ms: seq<S.Move>, n: Net, m: Move, r: Net)
    returns (ys: seq<S.Session>, ns: seq<S.Move>)
    requires S.IsSession(who, id, games, steps, xs, ms) && xs[|ms|] == Abstract(n) && Refines(who, n, m, r)
    ensures S.IsSession(who, id, games, steps, ys, ns) && ys[0] == xs[0] && ys[|ns|] == Abstract(r)
  {
    var a := AbstractMove(m);
    if a.None? {
      return xs, ms;
    }
    SessionExtends(who, id, games, steps, xs, ms, a.value);
    return xs + [S.Apply(who, xs[|ms|], a.value)], ms + [a.value];
  }

  lemma OneMoveBack(who: Identity, id: string, games: seq<R.Game>, steps: seq<R.Step>, round: int -> int,
                    nets: seq<Net>, moves: seq<Move>)
    requires IsRun(who, id, games, steps, round, nets, moves) && moves != []
    ensures var k := |moves| - 1;
            && IsRun(who, id, games, steps, round, nets[..|moves|], moves[..k])
            && Enabled(who, nets[k], moves[k]) && nets[|moves|] == Apply(who, nets[k], moves[k], round)
  {
  }

  // ----- Main results

  /** Every run over the network is a session: leaving out what only moves bytes gives a run
      of Session with the same server, the same client and the same messages. */
  lemma {:induction false} RunsAreSessions(who: Identity, id: string, games: seq<R.Game>, steps: seq<R.Step>,
                                           round: int -> int, nets: seq<Net>, moves: seq<Move>)
    returns (xs: seq<S.Session>, ms: seq<S.Move>)
    requires IsRun(who, id, games, steps, round, nets, moves) && S.Fits(nets[0].g.s)
    ensures S.IsSession(who, id, games, steps, xs, ms) && xs[0] == Abstract(nets[0])
    ensures xs[|ms|] == Abstract(nets[|moves|]) && Inv(who, nets[|moves|], round)
    decreases |moves|
  {
    if moves == [] {
      BeginsKeep(who, id, games, steps, nets[0], round);
      return [Abstract(nets[0])], [];
    }
    var k := |moves| - 1;
    OneMoveBack(who, id, games, steps, round, nets, moves);
    xs, ms := RunsAreSessions(who, id, games, steps, round, nets[..|moves|], moves[..k]);
    S.SessionKeeps(who, id, games, steps, xs, ms);
    MoveKeeps(who, nets[k], moves[k], round);
    MoveRefines(who, nets[k], moves[k], round);
    xs, ms := OneMoreMove(who, id, games, steps, xs, ms, nets[k], moves[k], nets[|moves|]);
  }

  lemma {:induction false} NoneOfThese(q: seq<Reply>)
    requires R.Penalties(q) == 0 && R.BadPuts(q) == 0
    ensures forall i :: 0 <= i < |q| ==> !q[i].Penalty? && !q[i].BadPut?
  {
    if q != [] {
      NoneOfThese(q[..|q| - 1]);
    }
  }

  /** Whatever is cut and however it is delayed on the way: the server handles exactly the
      requests the client has sent, in order; the client has parsed exactly the first replies
      the server has queued for it, none of them PENALTY or BAD_PUT; and their numbers agree
      up to the put that is on its way. */
  lemma AgreementOverNetwork(who: Identity, id: string, games: seq<R.Game>, steps: seq<R.Step>, round: int -> int,
                             nets: seq<Net>, moves: seq<Move>)
    requires IsRun(who, id, games, steps, round, nets, moves) && S.Fits(nets[0].g.s) && Alive(who, nets[|moves|])
    ensures var n := nets[|moves|];
            var p := n.g.s.players[who.fd];
            && n.handled <= |n.up.lines| <= |n.sent| <= n.handled + 1
            && (forall i, line :: 0 <= i < |n.up.lines| ==>
                  RequestOf(n.up.lines[i], line) == S.ToRequest(n.sent[i], line))
            && |n.down.box.incoming| <= p.taken <= |p.queued|
            && (forall i :: 0 <= i < |n.down.box.incoming| ==>
                  n.down.box.incoming[i] == D.AsMessage(p.queued[i], round))
            && (forall i :: 0 <= i < |p.queued| ==> !p.queued[i].Penalty? && !p.queued[i].BadPut?)
            && !n.down.box.failed && !n.c.failed && p.penalty == 0
            && S.ListsAll(n.c.approximation, S.With(p.approximations, S.Outstanding(n.c, n.sent[n.handled..])))
  {
    var xs, ms := RunsAreSessions(who, id, games, steps, round, nets, moves);
    S.ClientAndServerAgree(who, id, games, steps, xs, ms);
    var n := nets[|moves|];
    var p := n.g.s.players[who.fd];
    assert D.PlayerClean(p);
    RepliesParsed(n.down, p, n.processed, round);
    NoneOfThese(p.queued);
    C.LinesCut(n.up);
    forall i, line | 0 <= i < |n.up.lines|
      ensures RequestOf(n.up.lines[i], line) == S.ToRequest(n.sent[i], line)
    {
      RequestArrives(n, i, line);
    }
  }

  /** So the automatic player over the network has no penalty, and the least score that as
      many legal puts could reach, the first of them at point 0 or 1. */
  lemma OptimalOverNetwork(who: Identity, id: string, games: seq<R.Game>, steps: seq<R.Step>, round: int -> int,
                           nets: seq<Net>, moves: seq<Move>, plan: seq<Put>)
    requires IsRun(who, id, games, steps, round, nets, moves) && S.Fits(nets[0].g.s) && Alive(who, nets[|moves|])
    requires var s := nets[|moves|].g.s;
             LegalPlan(plan, s.K + 1) && |plan| == s.players[who.fd].correctPuts && (plan != [] ==> plan[0].point < 2)
    ensures var s := nets[|moves|].g.s;
            var p := s.players[who.fd];
            && p.penalty == 0 && |p.approximations| == s.K + 1
            && Score(s.K, p) <= SquaredError(ApplyPlan(S.Reals(s.K, p.coefficients), plan))
  {
    var xs, ms := RunsAreSessions(who, id, games, steps, round, nets, moves);
    S.AutoPlayerIsOptimal(who, id, games, steps, xs, ms, plan);
  }

  /** Any client's requests, over any connection: when the lines queued are accepted by the
      parser, the server handles a prefix of the requests they stand for, in order, and all
      of them once nothing is left to send or receive. */
  lemma RequestsArrive(links: seq<C.Link>, moves: seq<C.Step>, k: nat, ms: seq<M.Message>, line: FileLine)
    requires C.IsRun(links, moves) && k <= |moves| && C.QueueIs(links[k], ms)
    ensures |links[k].lines| <= |ms|
    ensures forall i :: 0 <= i < |links[k].lines| ==> RequestOf(links[k].lines[i], line) == D.AsRequest(ms[i], line)
    ensures links[k].messages == [] && links[k].wire == "" ==> |links[k].lines| == |ms|
  {
    C.LinesArrive(links, moves, k);
  }
}
