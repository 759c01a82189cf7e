/** One automatic client and the server, connected by first-in first-out channels, with any
    number of other clients doing anything the server allows.

    The channel to the client is the sequence of messages the server has queued for it, of
    which the server has taken some and the client has processed some.  A session begins
    when the server accepts the connection; the client has then sent its HELLO.  It is
    followed until the connection ends or the server starts a new game. */
module Session {
  import opened Wrappers
  import opened Greedy
  import opened Poly
  import opened Events
  import opened Rows
  import opened Server
  import opened ServerRuns
  import opened AutoClient

  datatype ToServer = SendHello(id: string) | SendPut(put: Put)

  datatype Session = Session(g: Game, c: Client, toServer: seq<ToServer>, processed: nat)

  datatype Move =
    | ServerMove(step: Step, now: int)       // anything but reading this client's messages
    | Read(line: FileLine, now: int)         // the server reads the next message of this client
    | Handle                                 // the processor handles the next message
    | ClaimPut | ChoosePut | Dispatch        // the three actions of the strategy thread

  predicate Alive(who: Identity, x: Session) {
    who.fd in x.g.s.players && x.g.s.players[who.fd].Who(who.fd) == who
  }

  function ToRequest(m: ToServer, line: FileLine): Request {
    match m
    case SendHello(id) => Hello(id, line)
    case SendPut(put) => PutValue(put.point, put.value)
  }

  /** The game before this client connects has been reached by some run of the server. */
  ghost predicate Begins(who: Identity, id: string, games: seq<Game>, steps: seq<Step>, x: Session) {
    && IsRun(games, steps) && steps != [] && steps[|steps| - 1] == Connect(who)
    && x == Session(games[|steps|], Fresh, [SendHello(id)], 0)
  }

  /** A STATE message has at least one value, or the client's parser drops it. */
  predicate Readable(m: Reply) {
    m.State? ==> m.values != []
  }

  ghost predicate Enabled(who: Identity, x: Session, m: Move) {
    match m
    case ServerMove(step, now) =>
      && ServerRuns.Enabled(x.g, step, now) && !step.NewGame?
      && (Alive(who, x) ==> !(step.Message? && step.fd == who.fd) && !(step.Leave? && step.fd == who.fd))
    case Read(line, now) =>
      Alive(who, x) && x.toServer != [] && ServerRuns.Enabled(x.g, Message(who.fd, ToRequest(x.toServer[0], line)), now)
    case Handle =>
      && Alive(who, x) && !x.c.gameOver && !x.c.failed
      && var p := x.g.s.players[who.fd];
      x.processed < p.taken && x.processed < |p.queued| && Readable(p.queued[x.processed])
    case ClaimPut => CanClaim(x.c) && !x.c.failed
    case ChoosePut => x.c.at == Claimed && !x.c.failed
    case Dispatch => x.c.at.Chosen? && !x.c.failed
  }

  /** Reading beyond the end of a vector counts as a failure of the client. */
  function Choose(c: Client): Client {
    if Covers(c) then var (c1, put) := GetBestPut(c); c1.(at := Chosen(put)) else c.(failed := true)
  }

  ghost function Apply(who: Identity, x: Session, m: Move): Session
    requires Enabled(who, x, m)
  {
    match m
    case ServerMove(step, now) => x.(g := ServerRuns.Apply(x.g, step, now))
    case Read(line, now) =>
      x.(g := ServerRuns.Apply(x.g, Message(who.fd, ToRequest(x.toServer[0], line)), now), toServer := x.toServer[1..])
    case Handle => x.(c := Process(x.c, x.g.s.players[who.fd].queued[x.processed]), processed := x.processed + 1)
    case ClaimPut => x.(c := Claim(x.c))
    case ChoosePut => x.(c := Choose(x.c))
    case Dispatch => x.(c := x.c.(at := Waiting), toServer := x.toServer + [SendPut(x.c.at.put)])
  }

  ghost predicate IsSession(who: Identity, id: string, games: seq<Game>, steps: seq<Step>, xs: seq<Session>,
                            moves: seq<Move>) {
    && |xs| == |moves| + 1 && Begins(who, id, games, steps, xs[0])
    && forall k :: 0 <= k < |moves| ==> Enabled(who, xs[k], moves[k]) && xs[k + 1] == Apply(who, xs[k], moves[k])
  }

  // ----- The invariant

  function Reals(K: nat, coefficients: seq<int>): (r: seq<int>)
    ensures |r| == K + 1
    ensures forall i :: 0 <= i <= K ==> r[i] == Value(coefficients, i)
  {
    seq(K + 1, i => Value(coefficients, i))
  }

  /** The put the client has chosen and the server has not yet processed. */
  function Outstanding(c: Client, toServer: seq<ToServer>): Option<Put> {
    if c.at.Chosen? then Some(c.at.put)
    else if toServer != [] && toServer[0].SendPut? then Some(toServer[0].put)
    else None
  }

  function With(a: seq<int>, put: Option<Put>): (r: seq<int>)
    ensures |r| == |a|
  {
    if put.Some? && 0 <= put.value.point < |a|
    then a[put.value.point := a[put.value.point] + put.value.value] else a
  }

  /** `b` lists the first values of `a`, and the values it does not list are zero. */
  ghost predicate ListsAll(b: seq<int>, a: seq<int>) {
    && |b| <= |a|
    && (forall i :: 0 <= i < |b| ==> b[i] == a[i])
    && (forall i :: |b| <= i < |a| ==> a[i] == 0)
  }

  function PutLimit(K: nat, puts: nat): nat {
    if puts == 0 then 2 else K + 1
  }

  /** The client's numbers: it knows the polynomial, its approximation is the server's plus
      the outstanding put, and the puts so far are those of the automatic strategy. */
  ghost predicate Agrees(K: nat, p: PlayerInfo, c: Client, put: Option<Put>, seen: int)
    requires K >= 1
  {
    && c.coeffs == p.coefficients && !c.isFirstMessage && |p.approximations| == K + 1
    && (c.kSet <==> seen >= 1) && (c.kSet ==> c.K == K)
    && |c.realValues| == |c.approximation| == (if c.kSet then K + 1 else 2)
    && (forall i :: 0 <= i < |c.realValues| ==> c.realValues[i] == Value(p.coefficients, i))
    && ListsAll(c.approximation, With(p.approximations, put))
    && Differences(K, p) == AutoRun(Reals(K, p.coefficients), p.correctPuts)
    && (put.Some? ==> put.value == BestPut(Differences(K, p), PutLimit(K, p.correctPuts)))
  }

  /** What is left of the queue once the game is over: the SCORING, until it is processed. */
  ghost predicate OnlyScoring(stopping: bool, c: Client, q: seq<Reply>) {
    if stopping && !c.gameOver then |q| == 1 && q[0].Scoring? else q == []
  }

  ghost predicate Untouched(K: nat, p: PlayerInfo) {
    p.correctPuts == 0 && p.approximations == seq(K + 1, i => 0)
  }

  /** Where the one token of the protocol is: with the client or on its way as HELLO, COEFF,
      PUT, a pending reply or STATE. */
  ghost predicate Greeting(K: nat, v: View, c: Client, toServer: seq<ToServer>, q: seq<Reply>) {
    && |toServer| == 1 && toServer[0].SendHello? && !v.p.isKnown && v.states == [] && q == [] && v.p.queued == []
    && c == Fresh && Untouched(K, v.p)
  }

  ghost predicate CoeffSent(K: nat, stopping: bool, v: View, c: Client, toServer: seq<ToServer>, q: seq<Reply>) {
    && toServer == [] && v.p.isKnown && v.p.canPut && v.states == []
    && q != [] && q[0].Coeff? && q[0].line.coefficients == v.p.coefficients && OnlyScoring(stopping, c, q[1..])
    && c == Fresh && Untouched(K, v.p)
  }

  ghost predicate Idle(K: nat, stopping: bool, v: View, c: Client, toServer: seq<ToServer>, q: seq<Reply>)
    requires K >= 1
  {
    && toServer == [] && v.p.isKnown && v.p.canPut && v.states == [] && OnlyScoring(stopping, c, q)
    && c.putsWithoutAnswer == (if c.at == Waiting then 0 else 1)
    && Agrees(K, v.p, c, Outstanding(c, toServer), v.p.correctPuts)
  }

  ghost predicate PutSent(K: nat, stopping: bool, v: View, c: Client, toServer: seq<ToServer>, q: seq<Reply>)
    requires K >= 1
  {
    && |toServer| == 1 && toServer[0].SendPut? && v.p.isKnown && v.p.canPut && v.states == []
    && OnlyScoring(stopping, c, q)
    && c.putsWithoutAnswer == 1 && c.at == Waiting
    && Agrees(K, v.p, c, Some(toServer[0].put), v.p.correctPuts)
  }

  ghost predicate Accepted(K: nat, stopping: bool, v: View, c: Client, toServer: seq<ToServer>, q: seq<Reply>)
    requires K >= 1
  {
    && toServer == [] && v.p.isKnown && v.p.correctPuts >= 1 && |v.states| == 1 && OnlyScoring(stopping, c, q)
    && v.states[0].event.StateReply? && |v.states[0].event.values| == K + 1
    && c.putsWithoutAnswer == 1 && c.at == Waiting
    && Agrees(K, v.p, c, None, v.p.correctPuts - 1)
  }

  ghost predicate Answered(K: nat, stopping: bool, v: View, c: Client, toServer: seq<ToServer>, q: seq<Reply>)
    requires K >= 1
  {
    && toServer == [] && v.p.isKnown && v.p.correctPuts >= 1 && v.p.canPut && v.states == []
    && q != [] && q[0].State? && |q[0].values| == K + 1 && OnlyScoring(stopping, c, q[1..])
    && c.putsWithoutAnswer == 1 && c.at == Waiting
    && Agrees(K, v.p, c, None, v.p.correctPuts - 1)
  }

  ghost predicate Clean(v: View, stopping: bool, c: Client, processed: nat) {
    && processed <= |v.p.queued| && v.p.penalty == 0 && Penalties(v.p.queued) == 0 && BadPuts(v.p.queued) == 0
    && v.bads == [] && !c.failed && (c.gameOver ==> stopping)
  }

  ghost predicate Linked(K: nat, stopping: bool, v: View, c: Client, toServer: seq<ToServer>, processed: nat) {
    && K >= 1 && Clean(v, stopping, c, processed)
    && var q := v.p.queued[processed..];
    || Greeting(K, v, c, toServer, q)
    || CoeffSent(K, stopping, v, c, toServer, q)
    || Idle(K, stopping, v, c, toServer, q)
    || PutSent(K, stopping, v, c, toServer, q)
    || Accepted(K, stopping, v, c, toServer, q)
    || Answered(K, stopping, v, c, toServer, q)
  }

  /** K is at least 1 and K^N fits in the client's int. */
  predicate Fits(s: Server) {
    s.K >= 1 && Pow(s.K, s.N) <= INT_MAX
  }

  ghost predicate AliveLinked(who: Identity, x: Session)
    requires Alive(who, x)
  {
    && PlayerOk(x.g, who.fd)
    && Linked(x.g.s.K, x.g.s.stopping, ViewOf(x.g, who.fd), x.c, x.toServer, x.processed)
  }

  ghost predicate SessionInv(who: Identity, x: Session) {
    && ServerRuns.Inv(x.g) && Fits(x.g.s) && who in x.g.used
    && (Alive(who, x) ==> AliveLinked(who, x))
  }

  // ----- The client's moves

  /** No x in 0..K overflows the client's 32-bit powers. */
  lemma RealsFit(K: nat, N: nat, coefficients: seq<int>, size: nat)
    requires Pow(K, N) <= INT_MAX && |coefficients| == N + 1 && size <= K + 1
    ensures forall i :: 0 <= i < size ==> Reals32(coefficients, size)[i] == Value(coefficients, i)
  {
    forall i | 0 <= i < size
      ensures Value32(coefficients, i) == Value(coefficients, i)
    {
      PowMonotone(i, K, N);
      ValuesAgree(coefficients, i, N);
    }
  }

  lemma HandleCoeff(K: nat, N: nat, stopping: bool, v: View, c: Client, toServer: seq<ToServer>, processed: nat)
    requires Pow(K, N) <= INT_MAX && |v.p.coefficients| == N + 1 && K >= 1 && |v.p.approximations| == K + 1
    requires Clean(v, stopping, c, processed) && CoeffSent(K, stopping, v, c, toServer, v.p.queued[processed..])
    ensures var r := Process(c, v.p.queued[processed]);
            Clean(v, stopping, r, processed + 1) && Idle(K, stopping, v, r, toServer, v.p.queued[processed + 1..])
  {
    var r := Process(c, v.p.queued[processed]);
    RealsFit(K, N, v.p.coefficients, 2);
    assert v.p.queued[processed..][1..] == v.p.queued[processed + 1..];
    assert Differences(K, v.p) == Reals(K, v.p.coefficients);
  }

  lemma HandleState(K: nat, N: nat, stopping: bool, v: View, c: Client, toServer: seq<ToServer>, processed: nat)
    requires Pow(K, N) <= INT_MAX && |v.p.coefficients| == N + 1 && K >= 1
    requires Clean(v, stopping, c, processed) && Answered(K, stopping, v, c, toServer, v.p.queued[processed..])
    ensures var r := Process(c, v.p.queued[processed]);
            Clean(v, stopping, r, processed + 1) && Idle(K, stopping, v, r, toServer, v.p.queued[processed + 1..])
  {
    var values := v.p.queued[processed].values;
    RealsFit(K, N, v.p.coefficients, |values|);
    assert v.p.queued[processed..][1..] == v.p.queued[processed + 1..];
  }

  lemma HandleScoring(K: nat, stopping: bool, v: View, c: Client, toServer: seq<ToServer>, processed: nat)
    requires Linked(K, stopping, v, c, toServer, processed)
    requires processed < |v.p.queued| && !c.isFirstMessage && !v.p.queued[processed].State? && !c.gameOver
    ensures Linked(K, stopping, v, Process(c, v.p.queued[processed]), toServer, processed + 1)
  {
    var q := v.p.queued[processed..];
    assert q[0] == v.p.queued[processed];
    assert v.p.queued[processed + 1..] == q[1..];
  }

  lemma PutListed(b: seq<int>, a: seq<int>, put: Put)
    requires ListsAll(b, a) && 0 <= put.point < |b|
    ensures ListsAll(b[put.point := b[put.point] + put.value], With(a, Some(put)))
  {
  }

  /** The differences the client looks at are the server's, up to the points it may put at. */
  lemma NextPut(K: nat, p: PlayerInfo, c: Client)
    requires K >= 1 && Agrees(K, p, c, None, p.correctPuts)
    ensures Covers(c) && BestPut(Missing(c), Limit(c)) == BestPut(Differences(K, p), PutLimit(K, p.correctPuts))
    ensures Limit(c) == |c.approximation|
  {
    var d, limit := Differences(K, p), Limit(c);
    assert limit == PutLimit(K, p.correctPuts) == |c.approximation|;
    assert Missing(c)[..limit] == d[..limit];
  }

  /** get_best_put on the client's numbers makes the automatic strategy's next put. */
  lemma ChooseAgrees(K: nat, p: PlayerInfo, c: Client)
    requires K >= 1 && Agrees(K, p, c, None, p.correctPuts)
    ensures Covers(c)
    ensures var (c1, put) := GetBestPut(c); Agrees(K, p, c1, Some(put), p.correctPuts)
  {
    NextPut(K, p, c);
    var (c1, put) := GetBestPut(c);
    assert With(p.approximations, None) == p.approximations;
    PutListed(c.approximation, p.approximations, put);
  }

  lemma ChooseKeeps(K: nat, stopping: bool, v: View, c: Client, toServer: seq<ToServer>, processed: nat)
    requires K >= 1 && Clean(v, stopping, c, processed)
    requires Idle(K, stopping, v, c, toServer, v.p.queued[processed..]) && c.at == Claimed
    ensures Covers(c)
    ensures Clean(v, stopping, Choose(c), processed)
    ensures Idle(K, stopping, v, Choose(c), toServer, v.p.queued[processed..])
  {
    ChooseAgrees(K, v.p, c);
  }

  lemma ClaimKeeps(K: nat, stopping: bool, v: View, c: Client, toServer: seq<ToServer>, processed: nat)
    requires Linked(K, stopping, v, c, toServer, processed) && CanClaim(c)
    ensures Linked(K, stopping, v, Claim(c), toServer, processed)
  {
  }

  lemma DispatchKeeps(K: nat, stopping: bool, v: View, c: Client, toServer: seq<ToServer>, processed: nat)
    requires Linked(K, stopping, v, c, toServer, processed) && c.at.Chosen?
    ensures Linked(K, stopping, v, c.(at := Waiting), toServer + [SendPut(c.at.put)], processed)
  {
  }

  lemma ChooseInPlace(K: nat, stopping: bool, v: View, c: Client, toServer: seq<ToServer>, processed: nat)
    requires Linked(K, stopping, v, c, toServer, processed) && c.at == Claimed
    ensures Covers(c) && Linked(K, stopping, v, Choose(c), toServer, processed)
  {
    ChooseKeeps(K, stopping, v, c, toServer, processed);
  }

  lemma HandleKeeps(K: nat, N: nat, stopping: bool, v: View, c: Client, toServer: seq<ToServer>, processed: nat)
    requires Pow(K, N) <= INT_MAX && |v.p.coefficients| == N + 1 && |v.p.approximations| == K + 1
    requires Linked(K, stopping, v, c, toServer, processed) && processed < |v.p.queued| && !c.gameOver
    requires Readable(v.p.queued[processed])
    ensures Linked(K, stopping, v, Process(c, v.p.queued[processed]), toServer, processed + 1)
  {
    var q := v.p.queued[processed..];
    assert q[0] == v.p.queued[processed];
    if CoeffSent(K, stopping, v, c, toServer, q) {
      HandleCoeff(K, N, stopping, v, c, toServer, processed);
    } else if Answered(K, stopping, v, c, toServer, q) {
      HandleState(K, N, stopping, v, c, toServer, processed);
    } else {
      HandleScoring(K, stopping, v, c, toServer, processed);
    }
  }

  // ----- The server's moves, as seen by this client

  lemma SameDifferences(K: nat, p: PlayerInfo, r: PlayerInfo)
    requires r.approximations == p.approximations && r.coefficients == p.coefficients
    ensures |p.approximations| == K + 1 ==> Differences(K, p) == Differences(K, r)
  {
  }

  /** Agreement does not depend on the queue or on the permission to put. */
  lemma StillAgrees(K: nat, p: PlayerInfo, r: PlayerInfo, c: Client, put: Option<Put>, seen: int)
    requires K >= 1 && Agrees(K, p, c, put, seen)
    requires r.approximations == p.approximations && r.coefficients == p.coefficients && r.correctPuts == p.correctPuts
    ensures Agrees(K, r, c, put, seen)
  {
    SameDifferences(K, p, r);
  }

  lemma ScoringArrives(K: nat, v: View, c: Client, toServer: seq<ToServer>, processed: nat, rows: seq<Row>)
    requires Linked(K, false, v, c, toServer, processed)
    ensures Linked(K, true, if v.p.isKnown then v.(p := v.p.Append(Scoring(rows))) else v, c, toServer, processed)
  {
    if v.p.isKnown {
      Appended(v.p.queued, Scoring(rows));
      ScoringAfter(K, v, v.p.Append(Scoring(rows)), c, toServer, v.p.queued[processed..], Scoring(rows));
      assert v.p.Append(Scoring(rows)).queued[processed..] == v.p.queued[processed..] + [Scoring(rows)];
    }
  }

  lemma ScoringAfter(K: nat, v: View, p: PlayerInfo, c: Client, toServer: seq<ToServer>, q: seq<Reply>, scoring: Reply)
    requires K >= 1 && scoring.Scoring? && p == v.p.(queued := p.queued) && v.p.isKnown && !c.gameOver
    ensures CoeffSent(K, false, v, c, toServer, q) ==> CoeffSent(K, true, v.(p := p), c, toServer, q + [scoring])
    ensures Idle(K, false, v, c, toServer, q) ==> Idle(K, true, v.(p := p), c, toServer, q + [scoring])
    ensures PutSent(K, false, v, c, toServer, q) ==> PutSent(K, true, v.(p := p), c, toServer, q + [scoring])
    ensures Accepted(K, false, v, c, toServer, q) ==> Accepted(K, true, v.(p := p), c, toServer, q + [scoring])
    ensures Answered(K, false, v, c, toServer, q) ==> Answered(K, true, v.(p := p), c, toServer, q + [scoring])
  {
    if q != [] {
      assert (q + [scoring])[1..] == q[1..] + [scoring];
    }
    forall put, seen | Agrees(K, v.p, c, put, seen)
      ensures Agrees(K, p, c, put, seen)
    {
      StillAgrees(K, v.p, p, c, put, seen);
    }
  }

  lemma TakenByServer(K: nat, stopping: bool, v: View, p: PlayerInfo, c: Client, toServer: seq<ToServer>,
                      processed: nat)
    requires Linked(K, stopping, v, c, toServer, processed) && p == v.p.(taken := p.taken)
    ensures Linked(K, stopping, v.(p := p), c, toServer, processed)
  {
    SameDifferences(K, v.p, p);
  }

  lemma HelloOnItsWay(K: nat, stopping: bool, v: View, c: Client, toServer: seq<ToServer>, processed: nat)
    requires Linked(K, stopping, v, c, toServer, processed) && toServer != [] && toServer[0].SendHello?
    ensures Clean(v, stopping, c, processed) && Greeting(K, v, c, toServer, v.p.queued[processed..]) && processed == 0
  {
  }

  lemma PutOnItsWay(K: nat, stopping: bool, v: View, c: Client, toServer: seq<ToServer>, processed: nat)
    requires Linked(K, stopping, v, c, toServer, processed) && toServer != [] && toServer[0].SendPut?
    ensures K >= 1 && Clean(v, stopping, c, processed) && PutSent(K, stopping, v, c, toServer, v.p.queued[processed..])
  {
  }

  function Greeted(p: PlayerInfo, id: string, line: FileLine): PlayerInfo {
    p.(id := id, delay := LowercaseLetters(id), isKnown := true, canPut := true,
       coefficients := line.coefficients).Append(Coeff(line))
  }

  lemma HelloRead(K: nat, v: View, c: Client, toServer: seq<ToServer>, processed: nat, id: string, line: FileLine)
    requires K >= 1 && Clean(v, false, c, processed) && Greeting(K, v, c, toServer, v.p.queued[processed..])
    requires processed == 0
    ensures Linked(K, false, v.(p := Greeted(v.p, id, line)), c, toServer[1..], processed)
  {
    var p := Greeted(v.p, id, line);
    Appended(v.p.queued, Coeff(line));
    assert p.queued[processed..] == [Coeff(line)];
    assert CoeffSent(K, false, v.(p := p), c, toServer[1..], p.queued[processed..]);
    assert Clean(v.(p := p), false, c, processed);
  }

  /** Accepting the outstanding put is one greedy step on the differences. */
  lemma PutApplied(K: nat, p: PlayerInfo, put: Put)
    requires |p.approximations| == K + 1 && Legal(put, K + 1)
    ensures Differences(K, Advanced(p, put.point, put.value)) == ApplyPut(Differences(K, p), put)
    ensures Advanced(p, put.point, put.value).approximations == With(p.approximations, Some(put))
  {
  }

  lemma AutoRunNext(d: seq<int>, n: nat)
    requires |d| >= 2
    ensures |AutoRun(d, n)| == |d|
    ensures AutoRun(d, n + 1) == ApplyPut(AutoRun(d, n), BestPut(AutoRun(d, n), PutLimit(|d| - 1, n)))
  {
  }

  lemma NextPutLegal(K: nat, d: seq<int>, n: nat)
    requires K >= 1 && |d| == K + 1
    ensures Legal(BestPut(d, PutLimit(K, n)), K + 1)
  {
  }

  /** The automatic strategy's next put takes its differences one step further. */
  lemma NextDifferences(K: nat, p: PlayerInfo, put: Put)
    requires K >= 1 && |p.approximations| == K + 1
    requires Differences(K, p) == AutoRun(Reals(K, p.coefficients), p.correctPuts)
    requires put == BestPut(Differences(K, p), PutLimit(K, p.correctPuts))
    ensures Legal(put, K + 1)
    ensures Differences(K, Advanced(p, put.point, put.value)) == AutoRun(Reals(K, p.coefficients), p.correctPuts + 1)
  {
    NextPutLegal(K, Differences(K, p), p.correctPuts);
    PutApplied(K, p, put);
    AutoRunNext(Reals(K, p.coefficients), p.correctPuts);
  }

  lemma AgreesGives(K: nat, p: PlayerInfo, c: Client, put: Put)
    requires K >= 1 && Agrees(K, p, c, Some(put), p.correctPuts)
    ensures |p.approximations| == K + 1
    ensures Differences(K, p) == AutoRun(Reals(K, p.coefficients), p.correctPuts)
    ensures put == BestPut(Differences(K, p), PutLimit(K, p.correctPuts))
  {
  }

  lemma AgreesAfter(K: nat, p: PlayerInfo, q: PlayerInfo, c: Client, put: Put, seen: int)
    requires K >= 1 && Agrees(K, p, c, Some(put), seen)
    requires q.coefficients == p.coefficients && q.approximations == With(p.approximations, Some(put))
    requires q.correctPuts == p.correctPuts + 1
    requires Differences(K, q) == AutoRun(Reals(K, p.coefficients), p.correctPuts + 1)
    ensures Agrees(K, q, c, None, seen)
  {
    assert With(q.approximations, None) == q.approximations;
  }

  /** When the server accepts the outstanding put, client and server agree without it. */
  lemma PutAgrees(K: nat, p: PlayerInfo, c: Client, put: Put)
    requires K >= 1 && Agrees(K, p, c, Some(put), p.correctPuts)
    ensures Legal(put, K + 1) && Agrees(K, Advanced(p, put.point, put.value), c, None, p.correctPuts)
  {
    AgreesGives(K, p, c, put);
    NextDifferences(K, p, put);
    PutApplied(K, p, put);
    var q := Advanced(p, put.point, put.value);
    AgreesAfter(K, p, q, c, put, p.correctPuts);
  }

  lemma PutRead(K: nat, v: View, c: Client, toServer: seq<ToServer>, processed: nat, e: Timed<Event>, now: int)
    requires K >= 1 && Clean(v, false, c, processed) && PutSent(K, false, v, c, toServer, v.p.queued[processed..])
    ensures var put := toServer[0].put; v.p.isKnown && v.p.canPut && Legal(put, K + 1)
    ensures var put := toServer[0].put;
            e.event.StateReply? && e.event.values == Advanced(v.p, put.point, put.value).approximations ==>
            Linked(K, false, AdvancedTo(v, e, put, now), c, toServer[1..], processed)
  {
    var put := toServer[0].put;
    var p := Advanced(v.p, put.point, put.value);
    PutAgrees(K, v.p, c, put);
    assert v.states + [e] == [e] && toServer[1..] == [];
    var w := AdvancedTo(v, e, put, now);
    if e.event.StateReply? && e.event.values == p.approximations {
      assert Accepted(K, false, w, c, toServer[1..], p.queued[processed..]);
      assert Clean(w, false, c, processed);
    }
  }

  lemma StateOnItsWay(K: nat, stopping: bool, v: View, c: Client, toServer: seq<ToServer>, processed: nat)
    requires Linked(K, stopping, v, c, toServer, processed) && v.states != []
    ensures K >= 1 && Clean(v, stopping, c, processed) && Accepted(K, stopping, v, c, toServer, v.p.queued[processed..])
  {
  }

  lemma StateFired(K: nat, stopping: bool, v: View, c: Client, toServer: seq<ToServer>, processed: nat)
    requires Linked(K, stopping, v, c, toServer, processed) && v.states != [] && !stopping
    ensures v.states[0].event.StateReply?
    ensures Linked(K, stopping, v.(p := Replied(v.p, v.states[0].event), states := v.states[1..]), c, toServer,
                   processed)
  {
    StateOnItsWay(K, stopping, v, c, toServer, processed);
    var p := Replied(v.p, v.states[0].event);
    Appended(v.p.queued, State(v.states[0].event.values));
    assert p.queued[processed..] == v.p.queued[processed..] + [State(v.states[0].event.values)];
    StillAgrees(K, v.p, p, c, None, v.p.correctPuts - 1);
    var w := v.(p := p, states := v.states[1..]);
    assert Answered(K, stopping, w, c, toServer, p.queued[processed..]);
    assert Clean(w, stopping, c, processed);
  }

  // ----- Steps of the server that concern other clients

  /** The player as this client sees it when the game has just ended, or not. */
  function Ended(v: View, ended: bool, rows: seq<Row>): View {
    if ended && v.p.isKnown then v.(p := v.p.Append(Scoring(rows))) else v
  }

  ghost predicate SameServer(g: Game, r: Game) {
    r.s.K == g.s.K && r.s.N == g.s.N
  }

  lemma ConnectView(g: Game, who: Identity, now: int, fd: int)
    requires ServerRuns.Inv(g) && ServerRuns.Enabled(g, Connect(who), now) && fd in g.s.players && PlayerOk(g, fd)
    ensures var r := ServerRuns.Apply(g, Connect(who), now);
            fd in r.s.players && fd in r.accepted && fd in r.instants && ViewOf(r, fd) == ViewOf(g, fd)
  {
    InsertForOther(g.s.events, Timed(now + HELLO_WAIT_TIME * SECOND, HelloTimeout(who)), g.s.players[fd].Who(fd));
  }

  lemma RefusedOther(g: Game, other: int, point: int, value: int, now: int, fd: int)
    requires ServerRuns.Inv(g) && ServerRuns.Enabled(g, Message(other, PutValue(point, value)), now)
    requires fd in g.s.players && PlayerOk(g, fd) && other != fd && g.s.players[other].isKnown
    requires !g.s.players[other].canPut || OutOfRange(g.s.K, point, value)
    ensures var r := ServerRuns.Apply(g, Message(other, PutValue(point, value)), now);
            && SameServer(g, r) && r.s.stopping == g.s.stopping
            && fd in r.s.players && fd in r.accepted && fd in r.instants && ViewOf(r, fd) == ViewOf(g, fd)
  {
    var outside := OutOfRange(g.s.K, point, value);
    var e := if outside then Some(BadEvent(g.s.players[other], other, point, value, now)) else None;
    RefusedIs(g, other, point, value, now);
    RefusedMove(g, other, outside, point, value, now);
    OthersUntouched(g, RefusedGame(g, other, outside, point, value, now), other, e, fd);
  }

  /** What one client sees of an accepted put that may end the game. */
  lemma RecordSeen(g: Game, other: int, point: int, value: int, now: int, fd: int) returns (rows: seq<Row>)
    requires other in g.s.players && other in g.accepted && other in g.instants
    requires 0 <= point < |g.s.players[other].approximations| && !g.s.stopping && g.s.total < g.s.M
    requires g.s.players[other].canPut && !OutOfRange(g.s.K, point, value)
    requires var m := AdvancedGame(g, other, point, value, now);
             fd in m.s.players && fd in m.accepted && fd in m.instants
    requires Wf(AdvancedServer(g.s, other, point, value, now))
    ensures var m := AdvancedGame(g, other, point, value, now);
            var r := Record(g, other, PutValue(point, value),
                            AfterAccepted(AdvancedServer(g.s, other, point, value, now)), now);
            && SameServer(g, r) && fd in r.s.players && fd in r.accepted && fd in r.instants
            && ViewOf(r, fd) == Ended(ViewOf(m, fd), r.s.stopping, rows)
  {
    var s := AdvancedServer(g.s, other, point, value, now);
    rows := [];
    if s.total >= s.M {
      var fds, scoring := EndedGame(g, s, other, point, value, now);
      AnnounceEffect(s.players, fds, scoring, fd);
      rows := scoring.rows;
    } else {
      GoesOn(g, other, point, value, now);
    }
  }

  lemma AcceptedOther(g: Game, other: int, point: int, value: int, now: int, fd: int) returns (rows: seq<Row>)
    requires ServerRuns.Inv(g) && ServerRuns.Enabled(g, Message(other, PutValue(point, value)), now)
    requires fd in g.s.players && PlayerOk(g, fd) && other != fd && g.s.players[other].isKnown
    requires g.s.players[other].canPut && !OutOfRange(g.s.K, point, value)
    ensures var r := ServerRuns.Apply(g, Message(other, PutValue(point, value)), now);
            && SameServer(g, r)
            && fd in r.s.players && fd in r.accepted && fd in r.instants
            && ViewOf(r, fd) == Ended(ViewOf(g, fd), r.s.stopping, rows)
  {
    AcceptedPut(g.s, other, point, value, now);
    AdvancedOther(g, other, point, value, now, fd);
    rows := RecordSeen(g, other, point, value, now, fd);
  }

  lemma AdvancedOther(g: Game, other: int, point: int, value: int, now: int, fd: int)
    requires Events.Sorted(g.s.events) && other in g.s.players && 0 <= point < |g.s.players[other].approximations|
    requires fd in g.s.players && fd in g.accepted && fd in g.instants && other != fd && other in g.accepted
    requires other in g.instants
    ensures ViewOf(AdvancedGame(g, other, point, value, now), fd) == ViewOf(g, fd)
  {
    var p := Advanced(g.s.players[other], point, value);
    InsertForOther(g.s.events, StateEvent(p, other, now), g.s.players[fd].Who(fd));
  }

  /** A HELLO, or a message that is refused outright, changes at most the player that sent
      it, and only its own records. */
  ghost predicate OnlySender(g: Game, r: Game, sender: int) {
    && SameServer(g, r) && r.s.stopping == g.s.stopping && r.s.events == g.s.events
    && (forall x :: x in r.s.players ==> x in g.s.players && r.s.players[x].Who(x) == g.s.players[x].Who(x))
    && (forall x :: x in g.s.players && x != sender ==> x in r.s.players && r.s.players[x] == g.s.players[x])
    && (forall x :: x in g.accepted && x != sender ==> x in r.accepted && r.accepted[x] == g.accepted[x])
    && (forall x :: x in g.instants && x != sender ==> x in r.instants && r.instants[x] == g.instants[x])
  }

  lemma PlainMessage(g: Game, sender: int, request: Request, now: int)
    requires ServerRuns.Enabled(g, Message(sender, request), now)
    requires !(request.PutValue? && g.s.players[sender].isKnown)
    ensures OnlySender(g, ServerRuns.Apply(g, Message(sender, request), now), sender)
  {
    if Ignored(g.s.players[sender], request) {
      IgnoredApply(g, sender, request, now);
    } else {
      HelloIs(g, sender, request.id, request.line, now);
    }
  }

  lemma UnseenMessage(g: Game, r: Game, sender: int, fd: int)
    requires OnlySender(g, r, sender) && fd in g.s.players && fd in g.accepted && fd in g.instants && fd != sender
    ensures fd in r.s.players && fd in r.accepted && fd in r.instants && ViewOf(r, fd) == ViewOf(g, fd)
  {
  }

  lemma MessageOther(g: Game, other: int, request: Request, now: int, fd: int) returns (rows: seq<Row>)
    requires ServerRuns.Inv(g) && ServerRuns.Enabled(g, Message(other, request), now)
    requires fd in g.s.players && PlayerOk(g, fd) && other != fd
    ensures var r := ServerRuns.Apply(g, Message(other, request), now);
            && SameServer(g, r)
            && fd in r.s.players && fd in r.accepted && fd in r.instants
            && ViewOf(r, fd) == Ended(ViewOf(g, fd), r.s.stopping, rows)
  {
    rows := [];
    var p := g.s.players[other];
    if !(request.PutValue? && p.isKnown) {
      PlainMessage(g, other, request, now);
      UnseenMessage(g, ServerRuns.Apply(g, Message(other, request), now), other, fd);
    } else if p.canPut && !OutOfRange(g.s.K, request.point, request.value) {
      rows := AcceptedOther(g, other, request.point, request.value, now, fd);
    } else {
      RefusedOther(g, other, request.point, request.value, now, fd);
    }
  }

  lemma StepOther(g: Game, step: Step, now: int, fd: int) returns (rows: seq<Row>)
    requires ServerRuns.Inv(g) && ServerRuns.Enabled(g, step, now) && fd in g.s.players && PlayerOk(g, fd)
    requires !step.Tick? && !step.NewGame? && (step.Message? || step.Leave? || step.Take? ==> step.fd != fd)
    ensures var r := ServerRuns.Apply(g, step, now);
            && SameServer(g, r) && (g.s.stopping ==> r.s.stopping)
            && fd in r.s.players && fd in r.accepted && fd in r.instants
            && ViewOf(r, fd) == Ended(ViewOf(g, fd), r.s.stopping && !g.s.stopping, rows)
  {
    rows := [];
    match step {
      case Connect(who) => ConnectView(g, who, now, fd);
      case Message(other, request) => rows := MessageOther(g, other, request, now, fd);
      case _ =>
    }
  }

  // ----- Steps of the server that concern this client

  lemma OwnPut(g: Game, fd: int, put: Put, now: int) returns (rows: seq<Row>)
    requires ServerRuns.Inv(g) && ServerRuns.Enabled(g, Message(fd, PutValue(put.point, put.value)), now)
    requires PlayerOk(g, fd) && g.s.players[fd].isKnown && g.s.players[fd].canPut && Legal(put, g.s.K + 1)
    ensures var r, v := ServerRuns.Apply(g, Message(fd, PutValue(put.point, put.value)), now), ViewOf(g, fd);
            && SameServer(g, r) && fd in r.s.players && fd in r.accepted && fd in r.instants
            && |v.p.approximations| == g.s.K + 1
            && var e := StateEvent(Advanced(v.p, put.point, put.value), fd, now);
            ViewOf(r, fd) == Ended(AdvancedTo(v, e, put, now), r.s.stopping, rows)
  {
    ToleranceVanishes(g.s.K, put.point, put.value);
    AcceptedPut(g.s, fd, put.point, put.value, now);
    Later(g.s.K, ViewOf(g, fd), g.now, now);
    AdvancedMove(g, fd, put.point, put.value, now);
    rows := RecordSeen(g, fd, put.point, put.value, now, fd);
  }

  lemma OwnHello(g: Game, fd: int, id: string, line: FileLine, now: int)
    requires ServerRuns.Inv(g) && ServerRuns.Enabled(g, Message(fd, Hello(id, line)), now) && PlayerOk(g, fd)
    requires !g.s.players[fd].isKnown
    ensures var r, v := ServerRuns.Apply(g, Message(fd, Hello(id, line)), now), ViewOf(g, fd);
            && SameServer(g, r) && r.s.stopping == g.s.stopping && fd in r.s.players && fd in r.accepted
            && fd in r.instants
            && ViewOf(r, fd) == v.(p := Greeted(v.p, id, line))
  {
  }

  lemma OwnTake(g: Game, fd: int, now: int)
    requires ServerRuns.Enabled(g, Take(fd), now) && PlayerOk(g, fd)
    ensures var r, v := ServerRuns.Apply(g, Take(fd), now), ViewOf(g, fd);
            && SameServer(g, r) && r.s.stopping == g.s.stopping && fd in r.s.players
            && ViewOf(r, fd) == v.(p := v.p.TakeFront())
  {
  }

  /** What firing the first event does to one player: nothing, a reply, or the end of the
      connection. */
  lemma FireSeen(g: Game, fd: int)
    requires g.s.events != [] && fd in g.s.players && PlayerOk(g, fd)
    ensures SameServer(g, g.(s := FireFirst(g.s))) && FireFirst(g.s).stopping == g.s.stopping
    ensures fd in FireFirst(g.s).players ==>
              var r, v, e := g.(s := FireFirst(g.s)), ViewOf(g, fd), g.s.events[0];
              || ViewOf(r, fd) == v
              || (e.event.StateReply? && v.states != [] && v.states[0] == e
                  && ViewOf(r, fd) == v.(p := Replied(v.p, e.event), states := v.states[1..]))
              || v.bads != []
  {
    var who, e := g.s.players[fd].Who(fd), g.s.events[0].event;
    SameSettings(g.s);
    FirstEvent(g.s.events, StateTo(who));
    FirstEvent(g.s.events, BadTo(who));
    if e.who == who && e.StateReply? {
      FireSelf(g);
      assert ViewOf(g, fd).states[1..] == Select(g.s.events[1..], StateTo(who));
    } else if fd in FireFirst(g.s).players && !(e.who == who && e.BadPutReply?) {
      FireElsewhere(g.s, fd);
    }
  }

  /** A callback that is not a reply to a player leaves the player as it is, or drops it. */
  lemma FireElsewhere(s: Server, fd: int)
    requires s.events != [] && fd in s.players && fd in FireFirst(s).players
    requires s.events[0].event.HelloTimeout? || s.events[0].event.who != s.players[fd].Who(fd)
    ensures FireFirst(s).players[fd] == s.players[fd]
  {
  }

  lemma SameSettings(s: Server)
    requires s.events != []
    ensures FireFirst(s).K == s.K && FireFirst(s).N == s.N && FireFirst(s).stopping == s.stopping
  {
  }

  // ----- Every move keeps the invariant

  lemma BeginsLinked(who: Identity, id: string, games: seq<Game>, steps: seq<Step>, x: Session)
    requires Begins(who, id, games, steps, x) && Fits(x.g.s)
    ensures SessionInv(who, x)
  {
    RunKeeps(games, steps);
    var k := |steps| - 1;
    assert ServerRuns.Enabled(games[k], steps[k], games[k + 1].now)
           && x.g == ServerRuns.Apply(games[k], steps[k], games[k + 1].now);
    assert PlayerOk(x.g, who.fd);
    var v := ViewOf(x.g, who.fd);
    assert v.p == NewPlayer(x.g.s.K, x.g.s.N, who);
    assert Greeting(x.g.s.K, v, x.c, x.toServer, v.p.queued[0..]);
  }

  lemma OtherMove(who: Identity, x: Session, step: Step, now: int)
    requires SessionInv(who, x) && Enabled(who, x, ServerMove(step, now)) && !step.Tick?
    requires Alive(who, x) && !(step.Take? && step.fd == who.fd)
    ensures SessionInv(who, Apply(who, x, ServerMove(step, now)))
  {
    var r := Apply(who, x, ServerMove(step, now));
    ServerRuns.StepKeeps(x.g, step, now);
    var rows := StepOther(x.g, step, now, who.fd);
    var v := ViewOf(x.g, who.fd);
    if r.g.s.stopping && !x.g.s.stopping {
      ScoringArrives(x.g.s.K, v, x.c, x.toServer, x.processed, rows);
    }
    assert PlayerOk(r.g, who.fd);
  }

  lemma TakeMove(who: Identity, x: Session, now: int)
    requires SessionInv(who, x) && Enabled(who, x, ServerMove(Take(who.fd), now)) && Alive(who, x)
    ensures SessionInv(who, Apply(who, x, ServerMove(Take(who.fd), now)))
  {
    var r := Apply(who, x, ServerMove(Take(who.fd), now));
    ServerRuns.StepKeeps(x.g, Take(who.fd), now);
    OwnTake(x.g, who.fd, now);
    var v := ViewOf(x.g, who.fd);
    TakenByServer(x.g.s.K, x.g.s.stopping, v, v.p.TakeFront(), x.c, x.toServer, x.processed);
    assert PlayerOk(r.g, who.fd);
  }

  lemma FireIdentity(s: Server, fd: int)
    requires s.events != [] && fd in FireFirst(s).players
    ensures fd in s.players && FireFirst(s).players[fd].Who(fd) == s.players[fd].Who(fd)
  {
  }

  lemma FireLinked(g: Game, r: Game, fd: int, c: Client, toServer: seq<ToServer>, processed: nat)
    requires g.s.events != [] && fd in g.s.players && PlayerOk(g, fd) && r == g.(s := FireFirst(g.s))
    requires fd in r.s.players
    requires Linked(g.s.K, false, ViewOf(g, fd), c, toServer, processed)
    ensures fd in r.accepted && fd in r.instants && Linked(g.s.K, false, ViewOf(r, fd), c, toServer, processed)
  {
    FireSeen(g, fd);
    if ViewOf(r, fd) != ViewOf(g, fd) {
      StateFired(g.s.K, false, ViewOf(g, fd), c, toServer, processed);
    }
  }

  lemma FireMove(who: Identity, x: Session)
    requires SessionInv(who, x) && x.g.s.events != [] && !x.g.s.stopping
    ensures SessionInv(who, x.(g := x.g.(s := FireFirst(x.g.s)))) && !FireFirst(x.g.s).stopping
  {
    var r := x.g.(s := FireFirst(x.g.s));
    FireKeeps(x.g);
    SameSettings(x.g.s);
    if Alive(who, x.(g := r)) {
      FireIdentity(x.g.s, who.fd);
      assert PlayerOk(r, who.fd);
      FireLinked(x.g, r, who.fd, x.c, x.toServer, x.processed);
    }
  }

  lemma {:induction false} TickMove(who: Identity, x: Session, now: int)
    requires SessionInv(who, x) && !x.g.s.stopping
    ensures SessionInv(who, x.(g := x.g.(s := RunTimers(x.g.s, now))))
    decreases |x.g.s.events|
  {
    if Due(x.g.s, now) {
      FireMove(who, x);
      TickMove(who, x.(g := x.g.(s := FireFirst(x.g.s))), now);
    }
  }

  lemma TimeMove(who: Identity, x: Session, now: int)
    requires SessionInv(who, x) && x.g.now <= now
    ensures SessionInv(who, x.(g := x.g.(now := now)))
  {
    TimePasses(x.g, now);
    var r := x.(g := x.g.(now := now));
    if Alive(who, r) {
      assert PlayerOk(r.g, who.fd);
      assert ViewOf(r.g, who.fd) == ViewOf(x.g, who.fd);
    }
  }

  /** After the connection has ended, no step of the server brings it back. */
  lemma StaysDead(who: Identity, x: Session, step: Step, now: int)
    requires ServerRuns.Inv(x.g) && who in x.g.used
    requires ServerRuns.Enabled(x.g, step, now) && !Alive(who, x) && !step.Tick? && !step.NewGame?
    ensures !Alive(who, x.(g := ServerRuns.Apply(x.g, step, now)))
    ensures SameServer(x.g, ServerRuns.Apply(x.g, step, now))
  {
    if who.fd in x.g.s.players {
      assert PlayerOk(x.g, who.fd);
      SameIdentity(x.g, step, now, who.fd);
    } else {
      NobodyAppears(x.g, step, now, who.fd);
    }
  }

  lemma DeadMove(who: Identity, x: Session, step: Step, now: int)
    requires SessionInv(who, x) && ServerRuns.Enabled(x.g, step, now) && !Alive(who, x) && !step.Tick? && !step.NewGame?
    ensures SessionInv(who, x.(g := ServerRuns.Apply(x.g, step, now)))
  {
    ServerRuns.StepKeeps(x.g, step, now);
    StaysDead(who, x, step, now);
  }

  lemma OwnIdentity(g: Game, fd: int, request: Request, now: int)
    requires ServerRuns.Inv(g) && ServerRuns.Enabled(g, Message(fd, request), now) && PlayerOk(g, fd)
    ensures var r := ServerRuns.Apply(g, Message(fd, request), now);
            SameServer(g, r) && (fd in r.s.players ==> r.s.players[fd].Who(fd) == g.s.players[fd].Who(fd))
  {
    if request.PutValue? && g.s.players[fd].isKnown {
      OwnPutIdentity(g, fd, request.point, request.value, now);
    } else {
      PlainMessage(g, fd, request, now);
    }
  }

  lemma SameIdentity(g: Game, step: Step, now: int, fd: int)
    requires ServerRuns.Inv(g) && ServerRuns.Enabled(g, step, now) && fd in g.s.players && PlayerOk(g, fd)
    requires !step.Tick? && !step.NewGame?
    ensures var r := ServerRuns.Apply(g, step, now);
            SameServer(g, r) && (fd in r.s.players ==> r.s.players[fd].Who(fd) == g.s.players[fd].Who(fd))
  {
    if step.Message? && step.fd == fd {
      OwnIdentity(g, fd, step.request, now);
    } else if (step.Leave? || step.Take?) && step.fd == fd {
    } else {
      var _ := StepOther(g, step, now, fd);
    }
  }

  lemma OwnPutIdentity(g: Game, fd: int, point: int, value: int, now: int)
    requires ServerRuns.Inv(g) && ServerRuns.Enabled(g, Message(fd, PutValue(point, value)), now) && PlayerOk(g, fd)
    requires g.s.players[fd].isKnown
    ensures var r := ServerRuns.Apply(g, Message(fd, PutValue(point, value)), now);
            SameServer(g, r) && fd in r.s.players && r.s.players[fd].Who(fd) == g.s.players[fd].Who(fd)
  {
    if g.s.players[fd].canPut && !OutOfRange(g.s.K, point, value) {
      ToleranceVanishes(g.s.K, point, value);
      var _ := OwnPut(g, fd, Put(point, value), now);
    } else {
      RefusedIs(g, fd, point, value, now);
    }
  }

  /** A put adds nobody to the players. */
  lemma PutPlayers(g: Game, sender: int, point: int, value: int, now: int)
    requires ServerRuns.Enabled(g, Message(sender, PutValue(point, value)), now) && g.s.players[sender].isKnown
    ensures var r := ServerRuns.Apply(g, Message(sender, PutValue(point, value)), now);
            SameServer(g, r) && r.s.players.Keys == g.s.players.Keys
  {
    if g.s.players[sender].canPut && !OutOfRange(g.s.K, point, value) {
      AcceptedPut(g.s, sender, point, value, now);
      assert AdvancedServer(g.s, sender, point, value, now).players.Keys == g.s.players.Keys;
    } else {
      RefusedPut(g.s, sender, point, value, now);
    }
  }

  lemma NobodyAppears(g: Game, step: Step, now: int, fd: int)
    requires ServerRuns.Inv(g) && ServerRuns.Enabled(g, step, now) && fd !in g.s.players && !step.Tick?
    requires !step.NewGame?
    ensures var r := ServerRuns.Apply(g, step, now);
            SameServer(g, r) && (fd in r.s.players ==> step.Connect? && r.s.players[fd].Who(fd) == step.who)
  {
    match step
    case Message(sender, request) =>
      if request.PutValue? && g.s.players[sender].isKnown {
        PutPlayers(g, sender, request.point, request.value, now);
      } else {
        PlainMessage(g, sender, request, now);
      }
    case _ =>
  }

  lemma ReadHello(g: Game, fd: int, c: Client, toServer: seq<ToServer>, processed: nat, line: FileLine, now: int)
    requires fd in g.s.players && PlayerOk(g, fd) && toServer != [] && toServer[0].SendHello? && !g.s.stopping
    requires ServerRuns.Inv(g) && ServerRuns.Enabled(g, Message(fd, Hello(toServer[0].id, line)), now)
    requires Linked(g.s.K, false, ViewOf(g, fd), c, toServer, processed)
    ensures var r := ServerRuns.Apply(g, Message(fd, Hello(toServer[0].id, line)), now);
            && SameServer(g, r) && fd in r.s.players && fd in r.accepted && fd in r.instants
            && r.s.players[fd].Who(fd) == g.s.players[fd].Who(fd)
            && Linked(g.s.K, r.s.stopping, ViewOf(r, fd), c, toServer[1..], processed)
  {
    var v := ViewOf(g, fd);
    HelloOnItsWay(g.s.K, false, v, c, toServer, processed);
    HelloRead(g.s.K, v, c, toServer, processed, toServer[0].id, line);
    OwnHello(g, fd, toServer[0].id, line, now);
  }

  /** An accepted put, with the end of the game it may bring. */
  lemma PutSeen(K: nat, v: View, c: Client, toServer: seq<ToServer>, processed: nat, e: Timed<Event>, now: int,
                ended: bool, rows: seq<Row>)
    requires K >= 1 && Clean(v, false, c, processed) && PutSent(K, false, v, c, toServer, v.p.queued[processed..])
    requires |v.p.approximations| == K + 1 && Legal(toServer[0].put, K + 1)
    requires e.event.StateReply?
    requires e.event.values == Advanced(v.p, toServer[0].put.point, toServer[0].put.value).approximations
    ensures var put := toServer[0].put;
            Linked(K, ended, Ended(AdvancedTo(v, e, put, now), ended, rows), c, toServer[1..], processed)
  {
    var put := toServer[0].put;
    PutRead(K, v, c, toServer, processed, e, now);
    if ended {
      ScoringArrives(K, AdvancedTo(v, e, put, now), c, toServer[1..], processed, rows);
    }
  }

  lemma ReadPut(g: Game, fd: int, c: Client, toServer: seq<ToServer>, processed: nat, now: int)
    requires fd in g.s.players && PlayerOk(g, fd) && toServer != [] && toServer[0].SendPut? && !g.s.stopping
    requires ServerRuns.Inv(g)
    requires ServerRuns.Enabled(g, Message(fd, PutValue(toServer[0].put.point, toServer[0].put.value)), now)
    requires Linked(g.s.K, false, ViewOf(g, fd), c, toServer, processed)
    ensures var r := ServerRuns.Apply(g, Message(fd, PutValue(toServer[0].put.point, toServer[0].put.value)), now);
            && SameServer(g, r) && fd in r.s.players && fd in r.accepted && fd in r.instants
            && r.s.players[fd].Who(fd) == g.s.players[fd].Who(fd)
            && Linked(g.s.K, r.s.stopping, ViewOf(r, fd), c, toServer[1..], processed)
  {
    var v, put := ViewOf(g, fd), toServer[0].put;
    PutOnItsWay(g.s.K, false, v, c, toServer, processed);
    var e := StateEvent(Advanced(v.p, put.point, put.value), fd, now);
    PutRead(g.s.K, v, c, toServer, processed, e, now);
    var rows := OwnPut(g, fd, put, now);
    var r := ServerRuns.Apply(g, Message(fd, PutValue(put.point, put.value)), now);
    PutSeen(g.s.K, v, c, toServer, processed, e, now, r.s.stopping, rows);
  }

  lemma ReadMove(who: Identity, x: Session, line: FileLine, now: int)
    requires SessionInv(who, x) && Enabled(who, x, Read(line, now))
    ensures SessionInv(who, Apply(who, x, Read(line, now)))
  {
    var r := Apply(who, x, Read(line, now));
    ServerRuns.StepKeeps(x.g, Message(who.fd, ToRequest(x.toServer[0], line)), now);
    if x.toServer[0].SendHello? {
      ReadHello(x.g, who.fd, x.c, x.toServer, x.processed, line, now);
    } else {
      ReadPut(x.g, who.fd, x.c, x.toServer, x.processed, now);
    }
    assert PlayerOk(r.g, who.fd);
  }

  /** A move of the client leaves the game alone. */
  lemma SameGame(who: Identity, x: Session, c: Client, toServer: seq<ToServer>, processed: nat)
    requires SessionInv(who, x) && Alive(who, x)
    requires Linked(x.g.s.K, x.g.s.stopping, ViewOf(x.g, who.fd), c, toServer, processed)
    ensures SessionInv(who, Session(x.g, c, toServer, processed))
  {
  }

  lemma HandleSeen(g: Game, fd: int, c: Client, toServer: seq<ToServer>, processed: nat)
    requires fd in g.s.players && PlayerOk(g, fd) && Fits(g.s)
    requires Linked(g.s.K, g.s.stopping, ViewOf(g, fd), c, toServer, processed)
    requires processed < |g.s.players[fd].queued| && !c.gameOver && Readable(g.s.players[fd].queued[processed])
    ensures Linked(g.s.K, g.s.stopping, ViewOf(g, fd), Process(c, g.s.players[fd].queued[processed]), toServer,
                   processed + 1)
  {
    HandleKeeps(g.s.K, g.s.N, g.s.stopping, ViewOf(g, fd), c, toServer, processed);
  }

  lemma HandledSession(who: Identity, x: Session, c: Client)
    requires SessionInv(who, x) && Alive(who, x) && x.processed < |x.g.s.players[who.fd].queued|
    requires var m := x.g.s.players[who.fd].queued[x.processed]; !x.c.gameOver && Readable(m) && c == Process(x.c, m)
    ensures SessionInv(who, Session(x.g, c, x.toServer, x.processed + 1))
  {
    HandleSeen(x.g, who.fd, x.c, x.toServer, x.processed);
    SameGame(who, x, c, x.toServer, x.processed + 1);
  }

  lemma HandleIs(who: Identity, x: Session)
    requires Enabled(who, x, Handle)
    ensures Apply(who, x, Handle) ==
            Session(x.g, Process(x.c, x.g.s.players[who.fd].queued[x.processed]), x.toServer, x.processed + 1)
  {
  }

  lemma HandleMove(who: Identity, x: Session)
    requires SessionInv(who, x) && Enabled(who, x, Handle)
    ensures SessionInv(who, Apply(who, x, Handle))
  {
    HandleIs(who, x);
    HandledSession(who, x, Process(x.c, x.g.s.players[who.fd].queued[x.processed]));
  }

  lemma StrategyMove(who: Identity, x: Session, m: Move)
    requires SessionInv(who, x) && Enabled(who, x, m) && Alive(who, x)
    requires m.ClaimPut? || m.ChoosePut? || m.Dispatch?
    ensures SessionInv(who, Apply(who, x, m))
  {
    var s, v := x.g.s, ViewOf(x.g, who.fd);
    match m {
      case ClaimPut => ClaimKeeps(s.K, s.stopping, v, x.c, x.toServer, x.processed);
      case ChoosePut => ChooseInPlace(s.K, s.stopping, v, x.c, x.toServer, x.processed);
      case Dispatch => DispatchKeeps(s.K, s.stopping, v, x.c, x.toServer, x.processed);
      case _ =>
    }
    var r := Apply(who, x, m);
    SameGame(who, x, r.c, r.toServer, r.processed);
  }

  lemma MoveKeeps(who: Identity, x: Session, m: Move)
    requires SessionInv(who, x) && Enabled(who, x, m)
    ensures SessionInv(who, Apply(who, x, m))
  {
    match m {
      case ServerMove(step, now) =>
        if step.Tick? {
          TimeMove(who, x, now);
          TickMove(who, x.(g := x.g.(now := now)), now);
        } else if !Alive(who, x) {
          DeadMove(who, x, step, now);
        } else if step.Take? && step.fd == who.fd {
          TakeMove(who, x, now);
        } else {
          OtherMove(who, x, step, now);
        }
      case Read(line, now) => ReadMove(who, x, line, now);
      case Handle => HandleMove(who, x);
      case _ =>
        if Alive(who, x) {
          StrategyMove(who, x, m);
        }
    }
  }

  lemma {:induction false} SessionKeeps(who: Identity, id: string, games: seq<Game>, steps: seq<Step>, xs: seq<Session>,
                                        moves: seq<Move>)
    requires IsSession(who, id, games, steps, xs, moves) && Fits(xs[0].g.s)
    ensures SessionInv(who, xs[|moves|])
    decreases |moves|
  {
    if moves == [] {
      BeginsLinked(who, id, games, steps, xs[0]);
    } else {
      var k := |moves| - 1;
      assert IsSession(who, id, games, steps, xs[..|moves|], moves[..k]);
      SessionKeeps(who, id, games, steps, xs[..|moves|], moves[..k]);
      MoveKeeps(who, xs[k], moves[k]);
    }
  }

  // ----- Main results

  /** The automatic client is never sent PENALTY or BAD_PUT and never reads beyond its
      vectors, and its approximation is the server's plus the at most one put the server has
      not processed, at the points it knows of; at the others the server's is still zero. */
  lemma ClientAndServerAgree(who: Identity, id: string, games: seq<Game>, steps: seq<Step>, xs: seq<Session>,
                             moves: seq<Move>)
    requires IsSession(who, id, games, steps, xs, moves) && Fits(xs[0].g.s) && Alive(who, xs[|moves|])
    ensures var x := xs[|moves|];
            var p := x.g.s.players[who.fd];
            && p.penalty == 0 && Penalties(p.queued) == 0 && BadPuts(p.queued) == 0
            && !x.c.failed && (x.c.at == Claimed ==> Covers(x.c))
            && ListsAll(x.c.approximation, With(p.approximations, Outstanding(x.c, x.toServer)))
            && |x.toServer| <= 1 && (x.c.at.Chosen? ==> x.toServer == [])
  {
    SessionKeeps(who, id, games, steps, xs, moves);
    var x := xs[|moves|];
    AgreementOf(x.g.s.K, x.g.s.stopping, ViewOf(x.g, who.fd), x.c, x.toServer, x.processed);
  }

  lemma AgreementOf(K: nat, stopping: bool, v: View, c: Client, toServer: seq<ToServer>, processed: nat)
    requires Linked(K, stopping, v, c, toServer, processed)
    ensures v.p.penalty == 0 && Penalties(v.p.queued) == 0 && BadPuts(v.p.queued) == 0 && !c.failed
    ensures c.at == Claimed ==> Covers(c)
    ensures ListsAll(c.approximation, With(v.p.approximations, Outstanding(c, toServer)))
    ensures |toServer| <= 1 && (c.at.Chosen? ==> toServer == [])
    ensures |v.p.approximations| == K + 1 && Differences(K, v.p) == AutoRun(Reals(K, v.p.coefficients), v.p.correctPuts)
  {
    if Untouched(K, v.p) {
      assert Differences(K, v.p) == Reals(K, v.p.coefficients);
    }
  }

  /** Composition.  At any time, and so when the game ends, an automatic player with n
      accepted puts has no penalty and the least score that any n legal puts could reach
      when the first of them is at point 0 or 1. */
  lemma AutoPlayerIsOptimal(who: Identity, id: string, games: seq<Game>, steps: seq<Step>, xs: seq<Session>,
                            moves: seq<Move>, plan: seq<Put>)
    requires IsSession(who, id, games, steps, xs, moves) && Fits(xs[0].g.s) && Alive(who, xs[|moves|])
    requires var s := xs[|moves|].g.s;
             LegalPlan(plan, s.K + 1) && |plan| == s.players[who.fd].correctPuts && (plan != [] ==> plan[0].point < 2)
    ensures var s := xs[|moves|].g.s;
            var p := s.players[who.fd];
            && p.penalty == 0 && |p.approximations| == s.K + 1
            && Score(s.K, p) <= SquaredError(ApplyPlan(Reals(s.K, p.coefficients), plan))
  {
    SessionKeeps(who, id, games, steps, xs, moves);
    var x := xs[|moves|];
    var v := ViewOf(x.g, who.fd);
    AgreementOf(x.g.s.K, x.g.s.stopping, v, x.c, x.toServer, x.processed);
    AutoIsOptimal(Reals(x.g.s.K, v.p.coefficients), plan);
  }
}
