/** Every run of the server: connections, messages, disconnections, timer checks, sends and
    new games, in any order the main loop of approx-server.cpp allows.

    File descriptors of connected clients are distinct, as the operating system guarantees,
    and no connection reuses the descriptor, address and port of an earlier one.  Time is
    monotone.  `accepted` and `instants` record, for each connected client, its accepted puts
    and when the puts arrived that scheduled its replies. */
module ServerRuns {
  import opened Wrappers
  import opened Greedy
  import opened Events
  import opened Rows
  import opened Descriptors
  import opened Server

  datatype Game = Game(s: Server, now: int, used: set<Identity>,
                       accepted: map<int, seq<Put>>, instants: map<int, Instants>)

  /** When the puts arrived that scheduled a STATE and those that scheduled a BAD_PUT. */
  datatype Instants = Instants(states: seq<int>, bads: seq<int>)

  function Noted(at: Instants, early: bool, outside: bool, now: int): Instants {
    Instants(if early || outside then at.states else at.states + [now],
             if outside then at.bads + [now] else at.bads)
  }

  datatype Step =
    | Connect(who: Identity)
    | Message(fd: int, request: Request)
    | Leave(fd: int)
    | Tick
    | Take(fd: int)
    | NewGame

  ghost predicate Start(g: Game) {
    && g.s.players == map[] && g.s.total == 0 && g.s.events == [] && !g.s.stopping && g.s.M >= 1
    && g.used == {} && g.accepted == map[] && g.instants == map[]
  }

  /** Once the game is over the main loop only sends what is queued and starts a new game. */
  ghost predicate Possible(s: Server, step: Step) {
    Wf(s) &&
    match step
    case Connect(who) => !s.stopping && who.fd !in s.players
    case Message(fd, request) =>
      !s.stopping && fd in s.players && (request.Hello? ==> |request.line.coefficients| == s.N + 1)
    case Leave(fd) => !s.stopping && fd in s.players
    case Tick => !s.stopping
    case Take(fd) => fd in s.players && s.players[fd].taken < |s.players[fd].queued|
    case NewGame => s.stopping
  }

  ghost predicate Enabled(g: Game, step: Step, now: int) {
    && g.now <= now && Possible(g.s, step)
    && (step.Connect? ==> step.who !in g.used)
    && (step.Message? ==> step.fd in g.accepted && step.fd in g.instants)
  }

  /** Whether the message was a put that the server counted. */
  predicate Counted(s: Server, r: Server, fd: int) {
    fd in s.players && fd in r.players && r.players[fd].correctPuts > s.players[fd].correctPuts
  }

  function NotedPut(g: Game, fd: int, point: int, value: int, now: int): map<int, Instants>
    requires fd in g.s.players && fd in g.instants
  {
    g.instants[fd := Noted(g.instants[fd], !g.s.players[fd].canPut, OutOfRange(g.s.K, point, value), now)]
  }

  /** The game after a message that left the server in state r. */
  ghost function Record(g: Game, fd: int, request: Request, r: Server, now: int): Game
    requires fd in g.s.players && fd in g.accepted && fd in g.instants
  {
    Game(r, now, g.used,
         if request.PutValue? && Counted(g.s, r, fd)
         then g.accepted[fd := g.accepted[fd] + [Put(request.point, request.value)]] else g.accepted,
         if request.PutValue? then NotedPut(g, fd, request.point, request.value, now) else g.instants)
  }

  ghost function Apply(g: Game, step: Step, now: int): Game
    requires Enabled(g, step, now)
  {
    match step
    case Connect(who) =>
      Game(Register(g.s, who, now), now, g.used + {who}, g.accepted[who.fd := []],
           g.instants[who.fd := Instants([], [])])
    case Message(fd, request) => Record(g, fd, request, Receive(g.s, fd, request, now), now)
    case Leave(fd) => g.(s := Disconnect(g.s, fd), now := now)
    case Tick => g.(s := RunTimers(g.s, now), now := now)
    case Take(fd) => g.(s := TakeMessage(g.s, fd), now := now)
    case NewGame => g.(s := ResetGame(g.s), now := now)
  }

  ghost predicate IsRun(games: seq<Game>, steps: seq<Step>) {
    && |games| == |steps| + 1 && Start(games[0])
    && forall k :: 0 <= k < |steps| ==>
         && Enabled(games[k], steps[k], games[k + 1].now)
         && games[k + 1] == Apply(games[k], steps[k], games[k + 1].now)
  }

  // ----- What the invariant counts

  function Penalties(q: seq<Reply>): nat {
    if q == [] then 0 else Penalties(q[..|q| - 1]) + if q[|q| - 1].Penalty? then 1 else 0
  }

  function BadPuts(q: seq<Reply>): nat {
    if q == [] then 0 else BadPuts(q[..|q| - 1]) + if q[|q| - 1].BadPut? then 1 else 0
  }

  /** The vectors of the STATE messages, in order. */
  function StatesIn(q: seq<Reply>): seq<seq<int>> {
    if q == [] then []
    else StatesIn(q[..|q| - 1]) + if q[|q| - 1].State? then [q[|q| - 1].values] else []
  }

  lemma Appended(q: seq<Reply>, r: Reply)
    ensures Penalties(q + [r]) == Penalties(q) + if r.Penalty? then 1 else 0
    ensures BadPuts(q + [r]) == BadPuts(q) + if r.BadPut? then 1 else 0
    ensures StatesIn(q + [r]) == StatesIn(q) + if r.State? then [r.values] else []
  {
    assert (q + [r])[..|q|] == q;
  }

  /** The approximation after some accepted puts: at each point their sum. */
  function SumAt(puts: seq<Put>, x: int): int {
    if puts == [] then 0
    else SumAt(puts[..|puts| - 1], x) + if puts[|puts| - 1].point == x then puts[|puts| - 1].value else 0
  }

  function Approximation(K: nat, puts: seq<Put>): (a: seq<int>)
    ensures |a| == K + 1
  {
    seq(K + 1, x => SumAt(puts, x))
  }

  /** The approximation after each of the accepted puts. */
  function Snapshots(K: nat, puts: seq<Put>): (states: seq<seq<int>>)
    ensures |states| == |puts|
    ensures forall j :: 0 <= j < |puts| ==> states[j] == Approximation(K, puts[..j + 1])
  {
    seq(|puts|, j requires 0 <= j < |puts| => Approximation(K, puts[..j + 1]))
  }

  predicate IsState(e: Event, who: Identity) {
    e.StateReply? && e.who == who
  }

  predicate IsBad(e: Event, who: Identity) {
    e.BadPutReply? && e.who == who
  }

  function StateTo(who: Identity): Event -> bool {
    e => IsState(e, who)
  }

  function BadTo(who: Identity): Event -> bool {
    e => IsBad(e, who)
  }

  function ValuesOf(es: seq<Timed<Event>>): (vs: seq<seq<int>>)
    requires forall i :: 0 <= i < |es| ==> es[i].event.StateReply?
    ensures |vs| == |es|
    ensures forall i :: 0 <= i < |es| ==> vs[i] == es[i].event.values
  {
    seq(|es|, i requires 0 <= i < |es| => es[i].event.values)
  }

  /** Puts counted for the connected players. */
  function CountedPuts(players: map<int, PlayerInfo>): nat
    decreases |players|
  {
    if players.Keys == {} then 0
    else
      var fd := Least(players.Keys);
      assert |players - {fd}| < |players| by {
        assert (players - {fd}).Keys == players.Keys - {fd};
      }
      players[fd].correctPuts + CountedPuts(players - {fd})
  }

  lemma {:induction false} CountedPutsSplit(players: map<int, PlayerInfo>, fd: int)
    requires fd in players
    ensures CountedPuts(players) == players[fd].correctPuts + CountedPuts(players - {fd})
    decreases |players|
  {
    var least := Least(players.Keys);
    if fd != least {
      var rest := players - {least};
      assert rest.Keys == players.Keys - {least};
      CountedPutsSplit(rest, fd);
      var other := players - {fd};
      assert other.Keys == players.Keys - {fd};
      assert least in other.Keys && Least(other.Keys) == least;
      assert rest - {fd} == other - {least};
    }
  }

  lemma CountedPutsUpdate(players: map<int, PlayerInfo>, fd: int, p: PlayerInfo)
    ensures CountedPuts(players[fd := p]) == p.correctPuts + CountedPuts(players - {fd})
  {
    CountedPutsSplit(players[fd := p], fd);
    assert players[fd := p] - {fd} == players - {fd};
  }

  // ----- The invariant of one player

  /** Everything the server holds about one connection: the player and the replies the timer
      queue holds for it, with the record of its puts. */
  datatype View = View(p: PlayerInfo, states: seq<Timed<Event>>, bads: seq<Timed<Event>>,
                       accepted: seq<Put>, at: Instants)

  function ViewOf(g: Game, fd: int): View
    requires fd in g.s.players && fd in g.accepted && fd in g.instants
  {
    var p := g.s.players[fd];
    View(p, Select(g.s.events, StateTo(p.Who(fd))), Select(g.s.events, BadTo(p.Who(fd))),
         g.accepted[fd], g.instants[fd])
  }

  /** The last of the instants are those of the puts whose replies are pending, each due a
      fixed time later. */
  ghost predicate Dues(es: seq<Timed<Event>>, instants: seq<int>, wait: int) {
    && |es| <= |instants|
    && forall i :: 0 <= i < |es| ==> es[i].due == instants[|instants| - |es| + i] + wait
  }

  ghost predicate Past(at: Instants, now: int) {
    && (forall i :: 0 <= i < |at.states| ==> at.states[i] <= now)
    && (forall i :: 0 <= i < |at.bads| ==> at.bads[i] <= now)
  }

  ghost predicate EventsOk(v: View, now: int) {
    && (forall i :: 0 <= i < |v.states| ==> v.states[i].event.StateReply? && v.states[i].event.id == v.p.id)
    && (forall i :: 0 <= i < |v.bads| ==> v.bads[i].event.BadPutReply? && v.bads[i].event.id == v.p.id)
    && Past(v.at, now)
    && Dues(v.states, v.at.states, v.p.delay * SECOND) && Dues(v.bads, v.at.bads, BAD_PUT_DELAY * SECOND)
  }

  ghost predicate Accounts(K: nat, v: View, now: int) {
    && EventsOk(v, now) && |v.at.states| == |v.accepted|
    && (!v.p.isKnown ==>
          && v.states == v.bads == [] && v.p.correctPuts == v.p.penalty == 0 && v.p.queued == [] && !v.p.canPut)
    && v.p.penalty == EARLY_PUT_PENALTY * Penalties(v.p.queued) + BAD_PUT_PENALTY * (BadPuts(v.p.queued) + |v.bads|)
    && StatesIn(v.p.queued) + ValuesOf(v.states) == Snapshots(K, v.accepted)
    && v.p.correctPuts == |v.accepted| && v.p.approximations == Approximation(K, v.accepted)
    && LegalPlan(v.accepted, K + 1)
  }

  ghost predicate PlayerOk(g: Game, fd: int)
    requires fd in g.s.players
  {
    && fd in g.accepted && fd in g.instants && g.s.players[fd].Who(fd) in g.used
    && PlayerWf(g.s, g.s.players[fd]) && Accounts(g.s.K, ViewOf(g, fd), g.now)
  }

  ghost predicate QueueOk(g: Game) {
    Events.Sorted(g.s.events) && forall x :: x in g.s.events ==> x.event.who in g.used
  }

  ghost predicate CountOk(s: Server) {
    s.M >= 1 && s.total == CountedPuts(s.players) <= s.M && (s.stopping <==> s.total == s.M)
  }

  ghost predicate Inv(g: Game) {
    QueueOk(g) && CountOk(g.s) && forall fd :: fd in g.s.players ==> PlayerOk(g, fd)
  }

  // ----- Changes to one view

  lemma Later(K: nat, v: View, now: int, later: int)
    requires Accounts(K, v, now) && now <= later
    ensures Accounts(K, v, later)
  {
  }

  /** Only STATE messages matter to the order of the snapshots. */
  lemma NoStateAppended(q: seq<Reply>, r: Reply)
    requires !r.State?
    ensures StatesIn(q + [r]) == StatesIn(q)
  {
    Appended(q, r);
    assert StatesIn(q) + [] == StatesIn(q);
  }

  /** Appending a message that is none of PENALTY, BAD_PUT and STATE changes no account. */
  lemma PlainReply(K: nat, v: View, r: Reply, now: int)
    requires Accounts(K, v, now) && v.p.isKnown && (r.Coeff? || r.Scoring?)
    ensures Accounts(K, v.(p := v.p.Append(r)), now)
  {
    Appended(v.p.queued, r);
    NoStateAppended(v.p.queued, r);
  }

  lemma PenaltyReply(K: nat, v: View, point: int, value: int, now: int)
    requires Accounts(K, v, now) && v.p.isKnown
    ensures var p := v.p.(penalty := v.p.penalty + EARLY_PUT_PENALTY, canPut := true);
            Accounts(K, v.(p := p.Append(Penalty(point, value))), now)
  {
    Appended(v.p.queued, Penalty(point, value));
    NoStateAppended(v.p.queued, Penalty(point, value));
  }

  lemma SnapshotsAfter(K: nat, puts: seq<Put>, p: Put)
    ensures Snapshots(K, puts + [p]) == Snapshots(K, puts) + [Approximation(K, puts + [p])]
  {
    var longer := Snapshots(K, puts + [p]);
    forall j | 0 <= j < |puts|
      ensures longer[j] == Snapshots(K, puts)[j]
    {
      assert (puts + [p])[..j + 1] == puts[..j + 1];
    }
    assert (puts + [p])[..|puts| + 1] == puts + [p];
  }

  lemma ApproximationAfter(K: nat, puts: seq<Put>, p: Put)
    requires Legal(p, K + 1)
    ensures var a := Approximation(K, puts);
            Approximation(K, puts + [p]) == a[p.point := a[p.point] + p.value]
  {
    assert (puts + [p])[..|puts|] == puts;
  }

  // ----- From one view to the whole server

  /** What a move that concerns only player fd, and schedules at most the event e, has to
      satisfy. */
  ghost predicate LocalMove(g: Game, r: Game, fd: int, e: Option<Timed<Event>>)
    requires fd in g.s.players
  {
    && r.s.K == g.s.K && r.s.N == g.s.N && r.s.M == g.s.M && r.used == g.used && g.now <= r.now
    && fd in r.s.players && r.s.players == g.s.players[fd := r.s.players[fd]]
    && r.s.players[fd].Who(fd) == g.s.players[fd].Who(fd)
    && fd in r.accepted && fd in r.instants
    && (forall other :: other in g.accepted && other != fd ==>
          other in r.accepted && r.accepted[other] == g.accepted[other])
    && (forall other :: other in g.instants && other != fd ==>
          other in r.instants && r.instants[other] == g.instants[other])
    && match e
       case None => r.s.events == g.s.events
       case Some(x) => r.s.events == Insert(g.s.events, x) && x.event.who == g.s.players[fd].Who(fd)
  }

  lemma InsertForOther(es: seq<Timed<Event>>, e: Timed<Event>, who: Identity)
    requires Events.Sorted(es) && e.event.who != who
    ensures Select(Insert(es, e), StateTo(who)) == Select(es, StateTo(who))
    ensures Select(Insert(es, e), BadTo(who)) == Select(es, BadTo(who))
  {
    SelectInsert(es, e, StateTo(who));
    SelectInsert(es, e, BadTo(who));
  }

  lemma OthersUntouched(g: Game, r: Game, fd: int, e: Option<Timed<Event>>, other: int)
    requires Events.Sorted(g.s.events) && fd in g.s.players && LocalMove(g, r, fd, e)
    requires other in g.s.players && other != fd && other in g.accepted && other in g.instants
    ensures ViewOf(r, other) == ViewOf(g, other)
  {
    if e.Some? {
      InsertForOther(g.s.events, e.value, g.s.players[other].Who(other));
    }
  }

  lemma LocalQueue(g: Game, r: Game, fd: int, e: Option<Timed<Event>>)
    requires QueueOk(g) && fd in g.s.players && LocalMove(g, r, fd, e) && g.s.players[fd].Who(fd) in g.used
    ensures QueueOk(r)
  {
    if e.Some? {
      Events.InsertSorted(g.s.events, e.value);
      InsertMembers(g.s.events, e.value);
    }
  }

  lemma LocalCount(s: Server, r: Server, fd: int)
    requires CountOk(s) && fd in s.players && fd in r.players && r.players == s.players[fd := r.players[fd]]
    requires r.M == s.M
    requires r.total == s.total + r.players[fd].correctPuts - s.players[fd].correctPuts <= r.M
    requires r.stopping <==> r.total == r.M
    ensures CountOk(r)
  {
    CountedPutsSplit(s.players, fd);
    CountedPutsUpdate(s.players, fd, r.players[fd]);
  }

  /** A player whose view does not change stays as it should be while time passes. */
  lemma SameView(g: Game, r: Game, fd: int)
    requires fd in g.s.players && PlayerOk(g, fd) && fd in r.s.players && fd in r.accepted && fd in r.instants
    requires ViewOf(r, fd) == ViewOf(g, fd)
    requires r.s.K == g.s.K && r.s.N == g.s.N && g.now <= r.now && g.used <= r.used
    ensures PlayerOk(r, fd)
  {
    Later(g.s.K, ViewOf(g, fd), g.now, r.now);
  }

  lemma LocalOther(g: Game, r: Game, fd: int, e: Option<Timed<Event>>, other: int)
    requires Events.Sorted(g.s.events) && fd in g.s.players && LocalMove(g, r, fd, e)
    requires other in g.s.players && other != fd && PlayerOk(g, other)
    ensures PlayerOk(r, other)
  {
    OthersUntouched(g, r, fd, e, other);
    SameView(g, r, other);
  }

  lemma LocalMoveKeeps(g: Game, r: Game, fd: int, e: Option<Timed<Event>>)
    requires Inv(g) && fd in g.s.players && LocalMove(g, r, fd, e)
    requires PlayerWf(r.s, r.s.players[fd]) && Accounts(r.s.K, ViewOf(r, fd), r.now)
    requires r.s.total == g.s.total + r.s.players[fd].correctPuts - g.s.players[fd].correctPuts <= r.s.M
    requires r.s.stopping <==> r.s.total == r.s.M
    ensures Inv(r)
  {
    assert PlayerOk(g, fd);
    LocalQueue(g, r, fd, e);
    LocalCount(g.s, r.s, fd);
    forall other | other in r.s.players
      ensures PlayerOk(r, other)
    {
      if other != fd {
        assert PlayerOk(g, other);
        LocalOther(g, r, fd, e, other);
      }
    }
  }

  lemma {:induction false} AnnounceKeeps(g: Game, fds: seq<int>, r: Reply)
    requires Inv(g) && r.Scoring? && forall fd :: fd in fds ==> fd in g.s.players
    ensures Inv(g.(s := g.s.(players := Announce(g.s.players, fds, r))))
    decreases |fds|
  {
    if fds != [] {
      var fd := fds[|fds| - 1];
      AnnounceKeeps(g, fds[..|fds| - 1], r);
      var before := g.(s := g.s.(players := Announce(g.s.players, fds[..|fds| - 1], r)));
      if before.s.players[fd].isKnown {
        var after := before.(s := Update(before.s, fd, before.s.players[fd].Append(r)));
        PlainReply(g.s.K, ViewOf(before, fd), r, g.now);
        assert ViewOf(after, fd) == ViewOf(before, fd).(p := before.s.players[fd].Append(r));
        LocalMoveKeeps(before, after, fd, None);
        assert after == g.(s := g.s.(players := Announce(g.s.players, fds, r)));
      }
    }
  }

  // ----- Puts

  lemma ScheduledBad(es: seq<Timed<Event>>, who: Identity, id: string, point: int, value: int, due: int)
    requires Events.Sorted(es)
    requires forall i :: 0 <= i < |Select(es, BadTo(who))| ==> Select(es, BadTo(who))[i].due <= due
    ensures var e := Timed(due, BadPutReply(who, id, point, value));
            && Select(Insert(es, e), StateTo(who)) == Select(es, StateTo(who))
            && Select(Insert(es, e), BadTo(who)) == Select(es, BadTo(who)) + [e]
  {
    var e := Timed(due, BadPutReply(who, id, point, value));
    assert !StateTo(who)(e.event) && BadTo(who)(e.event);
    SelectInsert(es, e, StateTo(who));
    SelectInsert(es, e, BadTo(who));
    InsertLast(Select(es, BadTo(who)), e);
  }

  lemma ScheduledState(es: seq<Timed<Event>>, who: Identity, id: string, values: seq<int>, due: int)
    requires Events.Sorted(es)
    requires forall i :: 0 <= i < |Select(es, StateTo(who))| ==> Select(es, StateTo(who))[i].due <= due
    ensures var e := Timed(due, StateReply(who, id, values));
            && Select(Insert(es, e), StateTo(who)) == Select(es, StateTo(who)) + [e]
            && Select(Insert(es, e), BadTo(who)) == Select(es, BadTo(who))
  {
    var e := Timed(due, StateReply(who, id, values));
    assert StateTo(who)(e.event) && !BadTo(who)(e.event);
    SelectInsert(es, e, StateTo(who));
    SelectInsert(es, e, BadTo(who));
    InsertLast(Select(es, StateTo(who)), e);
  }

  /** The player after a put that is early, out of range, or both. */
  function Refused(p: PlayerInfo, outside: bool, point: int, value: int): PlayerInfo {
    var p1 := if p.canPut then p
              else p.(penalty := p.penalty + EARLY_PUT_PENALTY, canPut := true).Append(Penalty(point, value));
    p1.(canPut := false, penalty := if outside then p1.penalty + BAD_PUT_PENALTY else p1.penalty)
  }

  function BadEvent(p: PlayerInfo, fd: int, point: int, value: int, now: int): Timed<Event> {
    Timed(now + BAD_PUT_DELAY * SECOND, BadPutReply(p.Who(fd), p.id, point, value))
  }

  /** The player after an accepted put. */
  function Advanced(p: PlayerInfo, point: int, value: int): PlayerInfo
    requires 0 <= point < |p.approximations|
  {
    p.(canPut := false, correctPuts := p.correctPuts + 1,
       approximations := p.approximations[point := p.approximations[point] + value])
  }

  function StateEvent(p: PlayerInfo, fd: int, now: int): Timed<Event> {
    Timed(now + p.delay * SECOND, StateReply(p.Who(fd), p.id, p.approximations))
  }

  /** A reply scheduled by a put that arrives now is the last of its kind. */
  lemma DuesGrow(es: seq<Timed<Event>>, instants: seq<int>, wait: int, now: int, e: Timed<Event>)
    requires Dues(es, instants, wait) && e.due == now + wait
    ensures Dues(es + [e], instants + [now], wait)
  {
    assert (es + [e])[|es|] == e;
  }

  lemma BadScheduled(K: nat, v: View, now: int, early: bool, e: Timed<Event>)
    requires Accounts(K, v, now) && v.p.isKnown && e.event.BadPutReply? && e.event.id == v.p.id
    requires e.due == now + BAD_PUT_DELAY * SECOND
    ensures Accounts(K, v.(p := v.p.(penalty := v.p.penalty + BAD_PUT_PENALTY), bads := v.bads + [e],
                           at := Noted(v.at, early, true, now)), now)
  {
    DuesGrow(v.bads, v.at.bads, BAD_PUT_DELAY * SECOND, now, e);
  }

  /** The accounts after PENALTY, if the put was early. */
  function AfterPenalty(v: View, point: int, value: int): View {
    if v.p.canPut then v
    else v.(p := v.p.(penalty := v.p.penalty + EARLY_PUT_PENALTY, canPut := true).Append(Penalty(point, value)))
  }

  function RefusedTo(v: View, outside: bool, e: Timed<Event>, point: int, value: int, now: int): View {
    View(Refused(v.p, outside, point, value), v.states, if outside then v.bads + [e] else v.bads, v.accepted,
         Noted(v.at, !v.p.canPut, outside, now))
  }

  lemma RefusedAccounts(K: nat, v: View, now: int, outside: bool, e: Timed<Event>, point: int, value: int)
    requires Accounts(K, v, now) && v.p.isKnown && (!v.p.canPut || outside)
    requires outside ==> e.event.BadPutReply? && e.event.id == v.p.id && e.due == now + BAD_PUT_DELAY * SECOND
    ensures Accounts(K, RefusedTo(v, outside, e, point, value, now), now)
  {
    var early := !v.p.canPut;
    if early {
      PenaltyReply(K, v, point, value, now);
    }
    var v1 := AfterPenalty(v, point, value);
    if outside {
      BadScheduled(K, v1, now, early, e);
    }
  }

  function AdvancedTo(v: View, e: Timed<Event>, put: Put, now: int): View
    requires 0 <= put.point < |v.p.approximations|
  {
    View(Advanced(v.p, put.point, put.value), v.states + [e], v.bads, v.accepted + [put],
         Noted(v.at, false, false, now))
  }

  lemma AdvancedView(K: nat, v: View, now: int, e: Timed<Event>, put: Put)
    requires Accounts(K, v, now) && v.p.isKnown && Legal(put, K + 1)
    requires e.event.StateReply? && e.event.id == v.p.id && e.due == now + v.p.delay * SECOND
    requires e.event.values == Advanced(v.p, put.point, put.value).approximations
    ensures Accounts(K, AdvancedTo(v, e, put, now), now)
  {
    SnapshotsAfter(K, v.accepted, put);
    ApproximationAfter(K, v.accepted, put);
    DuesGrow(v.states, v.at.states, v.p.delay * SECOND, now, e);
    var states := v.states + [e];
    assert ValuesOf(states) == ValuesOf(v.states) + [e.event.values];
    assert StatesIn(v.p.queued) + (ValuesOf(v.states) + [e.event.values]) ==
           Snapshots(K, v.accepted) + [e.event.values];
  }

  /** The server after a put that is early, out of range, or both. */
  function RefusedServer(s: Server, fd: int, outside: bool, point: int, value: int, now: int): Server
    requires fd in s.players
  {
    var p := s.players[fd];
    s.(players := s.players[fd := Refused(p, outside, point, value)],
       events := if outside then Insert(s.events, BadEvent(p, fd, point, value, now)) else s.events)
  }

  /** The server after an accepted put, before the game may end. */
  function AdvancedServer(s: Server, fd: int, point: int, value: int, now: int): Server
    requires fd in s.players && 0 <= point < |s.players[fd].approximations|
  {
    var p := Advanced(s.players[fd], point, value);
    s.(players := s.players[fd := p], total := s.total + 1, events := Insert(s.events, StateEvent(p, fd, now)))
  }

  /** handle_put on a put that is early, out of range, or both. */
  lemma RefusedPut(s: Server, fd: int, point: int, value: int, now: int)
    requires fd in s.players && Wf(s) && s.players[fd].isKnown
    requires !s.players[fd].canPut || OutOfRange(s.K, point, value)
    ensures Receive(s, fd, PutValue(point, value), now) ==
            RefusedServer(s, fd, OutOfRange(s.K, point, value), point, value, now)
  {
  }

  lemma AdvancedWf(s: Server, fd: int, point: int, value: int, now: int)
    requires fd in s.players && Wf(s) && 0 <= point <= s.K
    ensures |s.players[fd].approximations| == s.K + 1 && Wf(AdvancedServer(s, fd, point, value, now))
    ensures AdvancedServer(s, fd, point, value, now) ==
            Accept(Update(s, fd, s.players[fd].(canPut := false)), fd, point, value, now)
  {
    assert PlayerWf(s, s.players[fd]);
    var p := Advanced(s.players[fd], point, value);
    assert PlayerWf(s, p);
  }

  lemma EndGameKeepsKnown(s: Server, fd: int)
    requires Wf(s) && fd in s.players
    ensures fd in EndGame(s).players && EndGame(s).players[fd].isKnown == s.players[fd].isKnown
    ensures EndGame(s).players[fd].correctPuts == s.players[fd].correctPuts
  {
    var fds := Ascending(s.players.Keys);
    AnnounceEffect(s.players, fds, Scoring(Rows.Sort(KnownRows(s, fds))), fd);
  }

  /** What the server returns from an accepted put. */
  function AfterAccepted(r: Server): Server
    requires Wf(r)
  {
    if r.total >= r.M then EndGame(r) else r
  }

  /** handle_put on a put it accepts. */
  lemma AcceptedPut(s: Server, fd: int, point: int, value: int, now: int)
    requires fd in s.players && Wf(s) && s.players[fd].isKnown
    requires s.players[fd].canPut && !OutOfRange(s.K, point, value)
    ensures |s.players[fd].approximations| == s.K + 1 && Legal(Put(point, value), s.K + 1)
    ensures var r := AdvancedServer(s, fd, point, value, now);
            Wf(r) && Receive(s, fd, PutValue(point, value), now) == AfterAccepted(r)
  {
    ToleranceVanishes(s.K, point, value);
    AdvancedWf(s, fd, point, value, now);
    EndGameKeepsKnown(AdvancedServer(s, fd, point, value, now), fd);
  }

  /** The whole game after a refused put. */
  ghost function RefusedGame(g: Game, fd: int, outside: bool, point: int, value: int, now: int): Game
    requires fd in g.s.players && fd in g.instants
  {
    Game(RefusedServer(g.s, fd, outside, point, value, now), now, g.used, g.accepted,
         g.instants[fd := Noted(g.instants[fd], !g.s.players[fd].canPut, outside, now)])
  }

  lemma RefusedMove(g: Game, fd: int, outside: bool, point: int, value: int, now: int)
    requires fd in g.s.players && fd in g.accepted && fd in g.instants && g.now <= now
    ensures LocalMove(g, RefusedGame(g, fd, outside, point, value, now), fd,
                      if outside then Some(BadEvent(g.s.players[fd], fd, point, value, now)) else None)
  {
    var p := g.s.players[fd];
    assert Refused(p, outside, point, value).Who(fd) == p.Who(fd);
  }

  lemma RefusedViews(g: Game, fd: int, outside: bool, point: int, value: int, now: int)
    requires Events.Sorted(g.s.events) && fd in g.s.players && fd in g.accepted && fd in g.instants
    requires EventsOk(ViewOf(g, fd), now)
    ensures ViewOf(RefusedGame(g, fd, outside, point, value, now), fd) ==
            RefusedTo(ViewOf(g, fd), outside, BadEvent(g.s.players[fd], fd, point, value, now), point, value, now)
  {
    var p := g.s.players[fd];
    assert Refused(p, outside, point, value).Who(fd) == p.Who(fd);
    if outside {
      ScheduledBad(g.s.events, p.Who(fd), p.id, point, value, now + BAD_PUT_DELAY * SECOND);
    }
  }

  lemma RefusedGameKeeps(g: Game, fd: int, outside: bool, point: int, value: int, now: int)
    requires Inv(g) && fd in g.s.players && PlayerOk(g, fd) && g.now <= now
    requires g.s.players[fd].isKnown && (!g.s.players[fd].canPut || outside)
    ensures Inv(RefusedGame(g, fd, outside, point, value, now))
  {
    var e := BadEvent(g.s.players[fd], fd, point, value, now);
    Later(g.s.K, ViewOf(g, fd), g.now, now);
    RefusedAccounts(g.s.K, ViewOf(g, fd), now, outside, e, point, value);
    RefusedViews(g, fd, outside, point, value, now);
    RefusedMove(g, fd, outside, point, value, now);
    LocalMoveKeeps(g, RefusedGame(g, fd, outside, point, value, now), fd, if outside then Some(e) else None);
  }

  lemma RefusedIs(g: Game, fd: int, point: int, value: int, now: int)
    requires fd in g.s.players && fd in g.accepted && fd in g.instants && Wf(g.s) && g.s.players[fd].isKnown
    requires !g.s.players[fd].canPut || OutOfRange(g.s.K, point, value)
    ensures Record(g, fd, PutValue(point, value), Receive(g.s, fd, PutValue(point, value), now), now) ==
            RefusedGame(g, fd, OutOfRange(g.s.K, point, value), point, value, now)
  {
    RefusedPut(g.s, fd, point, value, now);
  }

  lemma RefusedKeeps(g: Game, fd: int, point: int, value: int, now: int)
    requires Inv(g) && Enabled(g, Message(fd, PutValue(point, value)), now)
    requires g.s.players[fd].isKnown && (!g.s.players[fd].canPut || OutOfRange(g.s.K, point, value))
    ensures Inv(Apply(g, Message(fd, PutValue(point, value)), now))
  {
    assert PlayerOk(g, fd);
    RefusedGameKeeps(g, fd, OutOfRange(g.s.K, point, value), point, value, now);
    RefusedIs(g, fd, point, value, now);
  }

  /** The whole game after an accepted put, before the scores are sent. */
  ghost function AdvancedGame(g: Game, fd: int, point: int, value: int, now: int): Game
    requires fd in g.s.players && 0 <= point < |g.s.players[fd].approximations| && fd in g.accepted && fd in g.instants
  {
    Game(AdvancedServer(g.s, fd, point, value, now).(stopping := g.s.total + 1 == g.s.M), now, g.used,
         g.accepted[fd := g.accepted[fd] + [Put(point, value)]],
         g.instants[fd := Noted(g.instants[fd], false, false, now)])
  }

  lemma AdvancedMove(g: Game, fd: int, point: int, value: int, now: int)
    requires Events.Sorted(g.s.events) && fd in g.s.players && fd in g.accepted && fd in g.instants && g.now <= now
    requires 0 <= point < |g.s.players[fd].approximations| && EventsOk(ViewOf(g, fd), now)
    ensures var p, m := Advanced(g.s.players[fd], point, value), AdvancedGame(g, fd, point, value, now);
            var e := StateEvent(p, fd, now);
            LocalMove(g, m, fd, Some(e)) && ViewOf(m, fd) == AdvancedTo(ViewOf(g, fd), e, Put(point, value), now)
  {
    var p := Advanced(g.s.players[fd], point, value);
    ScheduledState(g.s.events, p.Who(fd), p.id, p.approximations, now + p.delay * SECOND);
  }

  lemma AdvancedKeeps(g: Game, fd: int, point: int, value: int, now: int)
    requires Inv(g) && fd in g.s.players && PlayerOk(g, fd) && g.now <= now && g.s.players[fd].isKnown
    requires !g.s.stopping && Legal(Put(point, value), g.s.K + 1)
    ensures g.s.total < g.s.M && Inv(AdvancedGame(g, fd, point, value, now))
  {
    var p, m := Advanced(g.s.players[fd], point, value), AdvancedGame(g, fd, point, value, now);
    var e := StateEvent(p, fd, now);
    Later(g.s.K, ViewOf(g, fd), g.now, now);
    AdvancedView(g.s.K, ViewOf(g, fd), now, e, Put(point, value));
    AdvancedMove(g, fd, point, value, now);
    LocalMoveKeeps(g, m, fd, Some(e));
  }

  /** The game goes on. */
  lemma GoesOn(g: Game, fd: int, point: int, value: int, now: int)
    requires fd in g.s.players && fd in g.accepted && fd in g.instants && 0 <= point < |g.s.players[fd].approximations|
    requires g.s.players[fd].canPut && !OutOfRange(g.s.K, point, value) && !g.s.stopping && g.s.total + 1 < g.s.M
    ensures Record(g, fd, PutValue(point, value), AdvancedServer(g.s, fd, point, value, now), now) ==
            AdvancedGame(g, fd, point, value, now)
  {
  }

  /** The game ends by announcing the scores and stopping. */
  lemma EndedGame(g: Game, r: Server, fd: int, point: int, value: int, now: int) returns (fds: seq<int>, scoring: Reply)
    requires fd in g.s.players && fd in g.accepted && fd in g.instants && 0 <= point < |g.s.players[fd].approximations|
    requires g.s.players[fd].canPut && !OutOfRange(g.s.K, point, value)
    requires r == AdvancedServer(g.s, fd, point, value, now) && Wf(r)
    ensures scoring.Scoring? && fds == Ascending(r.players.Keys)
    ensures Record(g, fd, PutValue(point, value), EndGame(r), now) ==
            AdvancedGame(g, fd, point, value, now)
              .(s := r.(players := Announce(r.players, fds, scoring), stopping := true))
  {
    fds := Ascending(r.players.Keys);
    scoring := Scoring(Rows.Sort(KnownRows(r, fds)));
    AnnounceEffect(r.players, fds, scoring, fd);
  }

  lemma AcceptedEnd(g: Game, fd: int, point: int, value: int, now: int)
    requires fd in g.s.players && fd in g.accepted && fd in g.instants && 0 <= point < |g.s.players[fd].approximations|
    requires g.s.players[fd].canPut && !OutOfRange(g.s.K, point, value) && g.s.total < g.s.M && !g.s.stopping
    requires Inv(AdvancedGame(g, fd, point, value, now)) && Wf(AdvancedServer(g.s, fd, point, value, now))
    ensures Inv(Record(g, fd, PutValue(point, value), AfterAccepted(AdvancedServer(g.s, fd, point, value, now)), now))
  {
    var m, r := AdvancedGame(g, fd, point, value, now), AdvancedServer(g.s, fd, point, value, now);
    if r.total >= r.M {
      var fds, scoring := EndedGame(g, r, fd, point, value, now);
      AnnounceKeeps(m, fds, scoring);
      assert m.(s := r.(players := Announce(r.players, fds, scoring), stopping := true)) ==
             m.(s := m.s.(players := Announce(m.s.players, fds, scoring)));
    } else {
      GoesOn(g, fd, point, value, now);
    }
  }

  lemma AcceptedKeeps(g: Game, fd: int, point: int, value: int, now: int)
    requires Inv(g) && Enabled(g, Message(fd, PutValue(point, value)), now)
    requires g.s.players[fd].isKnown && g.s.players[fd].canPut && !OutOfRange(g.s.K, point, value)
    ensures Inv(Apply(g, Message(fd, PutValue(point, value)), now))
  {
    assert PlayerOk(g, fd);
    AcceptedPut(g.s, fd, point, value, now);
    AdvancedKeeps(g, fd, point, value, now);
    AcceptedEnd(g, fd, point, value, now);
  }

  /** Announcing to one more player. */
  lemma AnnounceLast(players: map<int, PlayerInfo>, fds: seq<int>, r: Reply)
    requires fds != [] && forall x :: x in fds ==> x in players
    ensures var k := |fds| - 1;
            var before := Announce(players, fds[..k], r);
            Announce(players, fds, r) ==
            if before[fds[k]].isKnown then before[fds[k] := before[fds[k]].Append(r)] else before
  {
  }

  /** Announcing only appends the message, to known players. */
  lemma {:induction false} AnnounceEffect(players: map<int, PlayerInfo>, fds: seq<int>, r: Reply, fd: int)
    requires (forall x :: x in fds ==> x in players) && fd in players
    requires forall i, j :: 0 <= i < j < |fds| ==> fds[i] < fds[j]
    ensures Announce(players, fds, r)[fd] ==
            if fd in fds && players[fd].isKnown then players[fd].Append(r) else players[fd]
    decreases |fds|
  {
    if fds != [] {
      var k := |fds| - 1;
      AnnounceEffect(players, fds[..k], r, fd);
      AnnounceEffect(players, fds[..k], r, fds[k]);
      AnnounceLast(players, fds, r);
      assert fd in fds <==> fd in fds[..k] || fd == fds[k];
    }
  }

  // ----- The other steps

  lemma TimePasses(g: Game, now: int)
    requires Inv(g) && g.now <= now
    ensures Inv(g.(now := now))
  {
    var r := g.(now := now);
    forall fd | fd in r.s.players
      ensures PlayerOk(r, fd)
    {
      assert PlayerOk(g, fd);
      SameView(g, r, fd);
    }
  }

  lemma DisconnectCounts(s: Server, fd: int)
    requires CountOk(s) && fd in s.players && (s.stopping ==> s.players[fd].correctPuts == 0)
    ensures CountOk(Disconnect(s, fd))
  {
    CountedPutsSplit(s.players, fd);
  }

  lemma DisconnectOther(g: Game, fd: int, instants: map<int, Instants>, other: int)
    requires fd in g.s.players && other in g.s.players && other != fd && PlayerOk(g, other)
    requires other in instants && instants[other] == g.instants[other]
    ensures PlayerOk(g.(s := Disconnect(g.s, fd), instants := instants), other)
  {
    var r := g.(s := Disconnect(g.s, fd), instants := instants);
    assert ViewOf(r, other) == ViewOf(g, other);
    SameView(g, r, other);
  }

  lemma DisconnectKeeps(g: Game, fd: int, instants: map<int, Instants>)
    requires Inv(g) && fd in g.s.players && (g.s.stopping ==> g.s.players[fd].correctPuts == 0)
    requires forall other :: other in g.instants && other != fd ==>
             other in instants && instants[other] == g.instants[other]
    ensures Inv(g.(s := Disconnect(g.s, fd), instants := instants))
  {
    var r := g.(s := Disconnect(g.s, fd), instants := instants);
    DisconnectCounts(g.s, fd);
    forall other | other in r.s.players
      ensures PlayerOk(r, other)
    {
      assert PlayerOk(g, other);
      DisconnectOther(g, fd, instants, other);
    }
  }

  lemma NoEventsFor(es: seq<Timed<Event>>, who: Identity)
    requires forall x :: x in es ==> x.event.who != who
    ensures Select(es, StateTo(who)) == Select(es, BadTo(who)) == []
  {
    SelectNone(es, StateTo(who));
    SelectNone(es, BadTo(who));
  }

  lemma EmptyAccounts(K: nat, N: nat, who: Identity, now: int)
    ensures Accounts(K, View(NewPlayer(K, N, who), [], [], [], Instants([], [])), now)
  {
    assert Snapshots(K, []) == [];
  }

  lemma ConnectOther(g: Game, who: Identity, now: int, other: int)
    requires Events.Sorted(g.s.events) && Enabled(g, Connect(who), now)
    requires other in g.s.players && PlayerOk(g, other)
    ensures PlayerOk(Apply(g, Connect(who), now), other)
  {
    var r := Apply(g, Connect(who), now);
    var e := Timed(now + HELLO_WAIT_TIME * SECOND, HelloTimeout(who));
    InsertForOther(g.s.events, e, g.s.players[other].Who(other));
    assert ViewOf(r, other) == ViewOf(g, other);
    SameView(g, r, other);
  }

  /** The timer queue holds no reply to a connection that has just been made. */
  lemma NewView(g: Game, who: Identity, now: int)
    requires QueueOk(g) && Enabled(g, Connect(who), now)
    ensures ViewOf(Apply(g, Connect(who), now), who.fd) ==
            View(NewPlayer(g.s.K, g.s.N, who), [], [], [], Instants([], []))
  {
    var e := Timed(now + HELLO_WAIT_TIME * SECOND, HelloTimeout(who));
    NoEventsFor(g.s.events, who);
    SelectInsert(g.s.events, e, StateTo(who));
    SelectInsert(g.s.events, e, BadTo(who));
    assert NewPlayer(g.s.K, g.s.N, who).Who(who.fd) == who;
  }

  lemma ConnectSelf(g: Game, who: Identity, now: int)
    requires QueueOk(g) && Enabled(g, Connect(who), now)
    ensures PlayerOk(Apply(g, Connect(who), now), who.fd)
  {
    NewView(g, who, now);
    EmptyAccounts(g.s.K, g.s.N, who, now);
    assert NewPlayer(g.s.K, g.s.N, who).Who(who.fd) == who;
  }

  lemma ConnectCounts(s: Server, who: Identity, now: int)
    requires CountOk(s) && who.fd !in s.players
    ensures CountOk(Register(s, who, now))
  {
    CountedPutsUpdate(s.players, who.fd, NewPlayer(s.K, s.N, who));
    assert s.players - {who.fd} == s.players;
  }

  lemma ConnectKeeps(g: Game, who: Identity, now: int)
    requires Inv(g) && Enabled(g, Connect(who), now)
    ensures Inv(Apply(g, Connect(who), now))
  {
    var r := Apply(g, Connect(who), now);
    ConnectCounts(g.s, who, now);
    assert QueueOk(r) by {
      var e := Timed(now + HELLO_WAIT_TIME * SECOND, HelloTimeout(who));
      Events.InsertSorted(g.s.events, e);
      InsertMembers(g.s.events, e);
    }
    forall other | other in r.s.players
      ensures PlayerOk(r, other)
    {
      if other == who.fd {
        ConnectSelf(g, who, now);
      } else {
        assert PlayerOk(g, other);
        ConnectOther(g, who, now, other);
      }
    }
  }

  /** A change of one player that touches neither its account nor the timer queue. */
  lemma PlayerKeeps(g: Game, fd: int, p: PlayerInfo, now: int)
    requires Inv(g) && fd in g.s.players && g.now <= now && p.Who(fd) == g.s.players[fd].Who(fd)
    requires p.correctPuts == g.s.players[fd].correctPuts && PlayerWf(g.s, p)
    requires PlayerOk(g, fd) && Accounts(g.s.K, ViewOf(g, fd).(p := p), now)
    ensures Inv(g.(s := Update(g.s, fd, p), now := now))
  {
    LocalMoveKeeps(g, g.(s := Update(g.s, fd, p), now := now), fd, None);
  }

  lemma HelloKeeps(g: Game, fd: int, id: string, line: FileLine, now: int)
    requires Inv(g) && fd in g.s.players && g.now <= now && !g.s.players[fd].isKnown && |line.coefficients| == g.s.N + 1
    ensures Inv(g.(s := OnHello(g.s, fd, id, line).0, now := now))
  {
    assert PlayerOk(g, fd);
    var v := ViewOf(g, fd);
    var p := v.p.(id := id, delay := LowercaseLetters(id), isKnown := true, canPut := true,
                  coefficients := line.coefficients);
    Later(g.s.K, v, g.now, now);
    PlainReply(g.s.K, v.(p := p), Coeff(line), now);
    PlayerKeeps(g, fd, p.Append(Coeff(line)), now);
  }

  /** A message that is refused outright; a client that is still unknown is dropped. */
  predicate Ignored(p: PlayerInfo, request: Request) {
    if p.isKnown then !request.PutValue? else !request.Hello?
  }

  lemma IgnoredIs(s: Server, fd: int, request: Request, now: int)
    requires fd in s.players && Wf(s) && Ignored(s.players[fd], request)
    ensures Receive(s, fd, request, now) == if s.players[fd].isKnown then s else Disconnect(s, fd)
  {
  }

  function IgnoredInstants(g: Game, fd: int, request: Request, now: int): map<int, Instants>
    requires fd in g.s.players && fd in g.instants
  {
    if request.PutValue? then NotedPut(g, fd, request.point, request.value, now) else g.instants
  }

  ghost function Dropped(g: Game, fd: int, instants: map<int, Instants>, now: int): Game
    requires fd in g.s.players
  {
    Game(Disconnect(g.s, fd), now, g.used, g.accepted, instants)
  }

  lemma IgnoredApply(g: Game, fd: int, request: Request, now: int)
    requires Enabled(g, Message(fd, request), now) && Ignored(g.s.players[fd], request)
    ensures g.s.players[fd].isKnown ==> Apply(g, Message(fd, request), now) == g.(now := now)
    ensures !g.s.players[fd].isKnown ==>
              Apply(g, Message(fd, request), now) == Dropped(g, fd, IgnoredInstants(g, fd, request, now), now)
  {
    IgnoredIs(g.s, fd, request, now);
  }

  lemma DropKeeps(g: Game, fd: int, now: int, instants: map<int, Instants>)
    requires Inv(g) && fd in g.s.players && g.now <= now && !g.s.stopping
    requires forall other :: other in g.instants && other != fd ==>
             other in instants && instants[other] == g.instants[other]
    ensures Inv(Dropped(g, fd, instants, now))
  {
    TimePasses(g, now);
    DisconnectKeeps(g.(now := now), fd, instants);
    assert Dropped(g, fd, instants, now) == g.(now := now).(s := Disconnect(g.s, fd), instants := instants);
  }

  lemma IgnoredKeeps(g: Game, fd: int, request: Request, now: int)
    requires Inv(g) && Enabled(g, Message(fd, request), now) && Ignored(g.s.players[fd], request)
    ensures Inv(Apply(g, Message(fd, request), now))
  {
    IgnoredApply(g, fd, request, now);
    if g.s.players[fd].isKnown {
      TimePasses(g, now);
    } else {
      DropKeeps(g, fd, now, IgnoredInstants(g, fd, request, now));
    }
  }

  lemma HelloIs(g: Game, fd: int, id: string, line: FileLine, now: int)
    requires Enabled(g, Message(fd, Hello(id, line)), now) && !g.s.players[fd].isKnown
    ensures Apply(g, Message(fd, Hello(id, line)), now) == g.(s := OnHello(g.s, fd, id, line).0, now := now)
  {
  }

  lemma MessageKeeps(g: Game, fd: int, request: Request, now: int)
    requires Inv(g) && Enabled(g, Message(fd, request), now)
    ensures Inv(Apply(g, Message(fd, request), now))
  {
    var p := g.s.players[fd];
    if Ignored(p, request) {
      IgnoredKeeps(g, fd, request, now);
    } else if request.Hello? {
      HelloIs(g, fd, request.id, request.line, now);
      HelloKeeps(g, fd, request.id, request.line, now);
    } else if p.canPut && !OutOfRange(g.s.K, request.point, request.value) {
      AcceptedKeeps(g, fd, request.point, request.value, now);
    } else {
      RefusedKeeps(g, fd, request.point, request.value, now);
    }
  }

  // ----- Timers

  lemma FirstEvent(es: seq<Timed<Event>>, p: Event -> bool)
    requires es != []
    ensures Select(es, p) == if p(es[0].event) then [es[0]] + Select(es[1..], p) else Select(es[1..], p)
  {
  }

  lemma DuesTail(es: seq<Timed<Event>>, instants: seq<int>, wait: int)
    requires Dues(es, instants, wait) && es != []
    ensures Dues(es[1..], instants, wait)
  {
    var rest := es[1..];
    assert forall i :: 0 <= i < |rest| ==> rest[i] == es[i + 1];
  }

  lemma StatesTail(v: View, now: int)
    requires EventsOk(v, now) && v.states != []
    ensures EventsOk(v.(states := v.states[1..]), now)
    ensures ValuesOf(v.states) == [v.states[0].event.values] + ValuesOf(v.states[1..])
  {
    DuesTail(v.states, v.at.states, v.p.delay * SECOND);
    var rest := v.states[1..];
    assert forall i :: 0 <= i < |rest| ==> rest[i] == v.states[i + 1];
  }

  lemma BadsTail(v: View, now: int)
    requires EventsOk(v, now) && v.bads != []
    ensures EventsOk(v.(bads := v.bads[1..]), now)
  {
    DuesTail(v.bads, v.at.bads, BAD_PUT_DELAY * SECOND);
    var rest := v.bads[1..];
    assert forall i :: 0 <= i < |rest| ==> rest[i] == v.bads[i + 1];
  }

  /** A STATE reply leaves the queue and joins the player's messages. */
  lemma FiredState(K: nat, v: View, now: int)
    requires Accounts(K, v, now) && v.states != []
    ensures Accounts(K, v.(p := v.p.(canPut := true).Append(State(v.states[0].event.values)), states := v.states[1..]),
                     now)
  {
    var values, rest := v.states[0].event.values, v.states[1..];
    Appended(v.p.queued, State(values));
    StatesTail(v, now);
    Regroup(StatesIn(v.p.queued), values, ValuesOf(rest));
  }

  /** A BAD_PUT reply leaves the queue and joins the player's messages. */
  lemma FiredBad(K: nat, v: View, now: int)
    requires Accounts(K, v, now) && v.bads != []
    ensures var reply := BadPut(v.bads[0].event.point, v.bads[0].event.value);
            Accounts(K, v.(p := v.p.(canPut := true).Append(reply), bads := v.bads[1..]), now)
  {
    var reply := BadPut(v.bads[0].event.point, v.bads[0].event.value);
    Appended(v.p.queued, reply);
    NoStateAppended(v.p.queued, reply);
    BadsTail(v, now);
  }

  /** The player after the first event, a reply to it, has fired. */
  function Replied(p: PlayerInfo, e: Event): PlayerInfo
    requires !e.HelloTimeout?
  {
    p.(canPut := true).Append(if e.StateReply? then State(e.values) else BadPut(e.point, e.value))
  }

  /** Firing a reply to a connected player, as seen by that player. */
  lemma FireOwnView(K: nat, es: seq<Timed<Event>>, who: Identity, v: View, now: int)
    requires Accounts(K, v, now) && v.states == Select(es, StateTo(who)) && v.bads == Select(es, BadTo(who))
    requires es != [] && !es[0].event.HelloTimeout? && es[0].event.who == who
    ensures es[0].event.id == v.p.id
    ensures Accounts(K, View(Replied(v.p, es[0].event), Select(es[1..], StateTo(who)), Select(es[1..], BadTo(who)),
                             v.accepted, v.at), now)
  {
    var e, rest := es[0], es[1..];
    FirstEvent(es, StateTo(who));
    FirstEvent(es, BadTo(who));
    if e.event.StateReply? {
      assert v.states[0] == e && v.states[1..] == Select(rest, StateTo(who));
      FiredState(K, v, now);
    } else {
      assert v.bads[0] == e && v.bads[1..] == Select(rest, BadTo(who));
      FiredBad(K, v, now);
    }
  }

  /** Removing an event from the queue leaves players it is not addressed to alone. */
  lemma FireOther(g: Game, r: Game, other: int)
    requires g.s.events != [] && r.s.events == g.s.events[1..] && r.now == g.now && r.used == g.used
    requires r.accepted == g.accepted && r.instants == g.instants && r.s.K == g.s.K && r.s.N == g.s.N
    requires other in g.s.players && other in r.s.players && r.s.players[other] == g.s.players[other]
    requires PlayerOk(g, other)
    requires g.s.events[0].event.HelloTimeout? || g.s.events[0].event.who != g.s.players[other].Who(other)
    ensures PlayerOk(r, other)
  {
    var who := g.s.players[other].Who(other);
    FirstEvent(g.s.events, StateTo(who));
    FirstEvent(g.s.events, BadTo(who));
    assert ViewOf(r, other) == ViewOf(g, other);
  }

  predicate ReplyDue(s: Server) {
    s.events != [] && Validates(s, s.events[0].event.who) && !s.events[0].event.HelloTimeout?
  }

  /** The whole server after the first event, a reply to a connected player, has fired. */
  ghost function RepliedGame(g: Game): Game
    requires ReplyDue(g.s)
  {
    var e := g.s.events[0].event;
    g.(s := g.s.(players := g.s.players[e.who.fd := Replied(g.s.players[e.who.fd], e)], events := g.s.events[1..]))
  }

  lemma FireSelf(g: Game)
    requires ReplyDue(g.s) && PlayerOk(g, g.s.events[0].event.who.fd)
    ensures RepliedGame(g).s == FireFirst(g.s) && PlayerOk(RepliedGame(g), g.s.events[0].event.who.fd)
  {
    var fd := g.s.events[0].event.who.fd;
    FireOwnView(g.s.K, g.s.events, g.s.players[fd].Who(fd), ViewOf(g, fd), g.now);
  }

  lemma FireOthers(g: Game, other: int)
    requires ReplyDue(g.s) && other in g.s.players && other != g.s.events[0].event.who.fd && PlayerOk(g, other)
    ensures PlayerOk(RepliedGame(g), other)
  {
    FireOther(g, RepliedGame(g), other);
  }

  lemma FireCount(s: Server, r: Server)
    requires CountOk(s) && ReplyDue(s)
    requires var e := s.events[0].event;
             r == s.(players := s.players[e.who.fd := Replied(s.players[e.who.fd], e)], events := s.events[1..])
    ensures CountOk(r)
  {
    LocalCount(s, r, s.events[0].event.who.fd);
  }

  /** The first event is a reply to a connected player. */
  lemma FireReply(g: Game)
    requires Inv(g) && ReplyDue(g.s)
    ensures Inv(g.(s := FireFirst(g.s)))
  {
    var fd, r := g.s.events[0].event.who.fd, RepliedGame(g);
    assert PlayerOk(g, fd);
    FireSelf(g);
    FireCount(g.s, r.s);
    FireQueue(g);
    forall other | other in r.s.players
      ensures PlayerOk(r, other)
    {
      if other != fd {
        assert PlayerOk(g, other);
        FireOthers(g, other);
      }
    }
  }

  lemma FireQueue(g: Game)
    requires QueueOk(g) && g.s.events != []
    ensures QueueOk(g.(s := FireFirst(g.s)))
  {
    assert forall x :: x in g.s.events[1..] ==> x in g.s.events;
  }

  lemma TimeoutIs(s: Server)
    requires s.events != [] && s.events[0].event.HelloTimeout?
    requires var who := s.events[0].event.who; Validates(s, who) && !s.players[who.fd].isKnown
    ensures FireFirst(s) == Disconnect(s.(events := s.events[1..]), s.events[0].event.who.fd)
  {
  }

  /** The first event is a hello timeout of a client that has sent no hello. */
  lemma FireTimeout(g: Game)
    requires Inv(g) && g.s.events != [] && g.s.events[0].event.HelloTimeout?
    requires var who := g.s.events[0].event.who; Validates(g.s, who) && !g.s.players[who.fd].isKnown
    ensures Inv(g.(s := FireFirst(g.s)))
  {
    var fd, r := g.s.events[0].event.who.fd, g.(s := g.s.(events := g.s.events[1..]));
    assert PlayerOk(g, fd);
    FireNothing(g);
    DisconnectKeeps(r, fd, r.instants);
    TimeoutIs(g.s);
    assert g.(s := FireFirst(g.s)) == r.(s := Disconnect(r.s, fd), instants := r.instants);
  }

  /** Erasing an event that is a hello timeout, or addressed to a client that has left. */
  lemma FireNothing(g: Game)
    requires Inv(g) && g.s.events != []
    requires g.s.events[0].event.HelloTimeout? || !Validates(g.s, g.s.events[0].event.who)
    ensures Inv(g.(s := g.s.(events := g.s.events[1..])))
  {
    var r := g.(s := g.s.(events := g.s.events[1..]));
    FireQueue(g);
    forall other | other in r.s.players
      ensures PlayerOk(r, other)
    {
      assert PlayerOk(g, other);
      FireOther(g, r, other);
    }
  }

  lemma FireKeeps(g: Game)
    requires Inv(g) && g.s.events != []
    ensures Inv(g.(s := FireFirst(g.s)))
  {
    var e := g.s.events[0].event;
    if Validates(g.s, e.who) && !e.HelloTimeout? {
      FireReply(g);
    } else if Validates(g.s, e.who) && !g.s.players[e.who.fd].isKnown {
      FireTimeout(g);
    } else {
      FireNothing(g);
      assert FireFirst(g.s) == g.s.(events := g.s.events[1..]);
    }
  }

  lemma {:induction false} TimersKeep(g: Game, now: int)
    requires Inv(g)
    ensures Inv(g.(s := RunTimers(g.s, now)))
    decreases |g.s.events|
  {
    if Due(g.s, now) {
      FireKeeps(g);
      TimersKeep(g.(s := FireFirst(g.s)), now);
    }
  }

  lemma TakeKeeps(g: Game, fd: int, now: int)
    requires Inv(g) && fd in g.s.players && g.now <= now && g.s.players[fd].taken < |g.s.players[fd].queued|
    ensures Inv(g.(s := TakeMessage(g.s, fd), now := now))
  {
    assert PlayerOk(g, fd);
    var p := g.s.players[fd].TakeFront();
    TakenView(g.s.K, ViewOf(g, fd), p, g.now, now);
    PlayerKeeps(g, fd, p, now);
  }

  lemma TakenView(K: nat, v: View, p: PlayerInfo, now: int, later: int)
    requires Accounts(K, v, now) && now <= later && p == v.p.(taken := p.taken)
    ensures Accounts(K, v.(p := p), later)
  {
    Later(K, v, now, later);
  }

  lemma StepKeeps(g: Game, step: Step, now: int)
    requires Inv(g) && Enabled(g, step, now)
    ensures Inv(Apply(g, step, now))
  {
    match step {
      case Connect(who) => ConnectKeeps(g, who, now);
      case Message(fd, request) => MessageKeeps(g, fd, request, now);
      case Leave(fd) =>
        TimePasses(g, now);
        DisconnectKeeps(g.(now := now), fd, g.instants);
      case Tick =>
        TimePasses(g, now);
        TimersKeep(g.(now := now), now);
      case Take(fd) => TakeKeeps(g, fd, now);
      case NewGame =>
    }
  }

  lemma {:induction false} RunKeeps(games: seq<Game>, steps: seq<Step>)
    requires IsRun(games, steps)
    ensures Inv(games[|steps|])
    decreases |steps|
  {
    if steps != [] {
      var k := |steps| - 1;
      assert IsRun(games[..|steps|], steps[..k]);
      RunKeeps(games[..|steps|], steps[..k]);
      StepKeeps(games[k], steps[k], games[k + 1].now);
    }
  }

  // ----- Main results

  /** Penalties.  A player's penalty is 20 for each PENALTY and 10 for each BAD_PUT, whether
      already queued or still pending, so its score is its squared error plus exactly that. */
  lemma PenaltyAccounting(games: seq<Game>, steps: seq<Step>, fd: int)
    requires IsRun(games, steps) && fd in games[|steps|].s.players
    ensures var s := games[|steps|].s;
            var p := s.players[fd];
            && |p.approximations| == s.K + 1
            && p.penalty == 20 * Penalties(p.queued) + 10 * (BadPuts(p.queued) + |Select(s.events, BadTo(p.Who(fd)))|)
            && Score(s.K, p) == SquaredError(Differences(s.K, p)) + SCALE * SCALE * p.penalty
  {
    RunKeeps(games, steps);
    assert PlayerOk(games[|steps|], fd);
  }

  /** The STATE messages already queued and then those still pending are the snapshots after
      the first, second, ... of the puts. */
  ghost predicate StatesFollow(K: nat, sent: seq<seq<int>>, pending: seq<Timed<Event>>, puts: seq<Put>) {
    && |sent| + |pending| == |puts|
    && (forall j :: 0 <= j < |sent| ==> sent[j] == Approximation(K, puts[..j + 1]))
    && (forall j :: 0 <= j < |pending| ==>
          pending[j].event.StateReply? && pending[j].event.values == Approximation(K, puts[..|sent| + j + 1]))
  }

  lemma StatesInOrder(K: nat, sent: seq<seq<int>>, pending: seq<Timed<Event>>, puts: seq<Put>)
    requires forall j :: 0 <= j < |pending| ==> pending[j].event.StateReply?
    requires sent + ValuesOf(pending) == Snapshots(K, puts)
    ensures StatesFollow(K, sent, pending, puts)
  {
    var all := sent + ValuesOf(pending);
    assert forall j :: 0 <= j < |sent| ==> all[j] == sent[j];
    assert forall j :: 0 <= j < |pending| ==> all[|sent| + j] == pending[j].event.values;
  }

  /** STATE order.  A player's approximation is the sum of its accepted puts at each point,
      and its STATE messages, queued and then pending, are the snapshots after its first,
      second, ... accepted put, in that order. */
  lemma StateOrder(games: seq<Game>, steps: seq<Step>, fd: int)
    requires IsRun(games, steps) && fd in games[|steps|].s.players
    ensures var g := games[|steps|];
            var p := g.s.players[fd];
            && fd in g.accepted && p.correctPuts == |g.accepted[fd]|
            && p.approximations == Approximation(g.s.K, g.accepted[fd])
            && StatesFollow(g.s.K, StatesIn(p.queued), Select(g.s.events, StateTo(p.Who(fd))), g.accepted[fd])
  {
    RunKeeps(games, steps);
    var g := games[|steps|];
    assert PlayerOk(g, fd);
    var v := ViewOf(g, fd);
    assert Accounts(g.s.K, v, g.now);
    StatesInOrder(g.s.K, StatesIn(v.p.queued), v.states, v.accepted);
  }

  /** Every pending reply is on time: STATE is due the delay of the player, BAD_PUT one
      second, after the put that scheduled it, and the pending ones are those of the last
      such puts. */
  lemma RepliesOnTime(games: seq<Game>, steps: seq<Step>, fd: int)
    requires IsRun(games, steps) && fd in games[|steps|].s.players
    ensures var g := games[|steps|];
            var p := g.s.players[fd];
            && fd in g.accepted && fd in g.instants && |g.instants[fd].states| == |g.accepted[fd]|
            && Past(g.instants[fd], g.now)
            && Dues(Select(g.s.events, StateTo(p.Who(fd))), g.instants[fd].states, p.delay * SECOND)
            && Dues(Select(g.s.events, BadTo(p.Who(fd))), g.instants[fd].bads, BAD_PUT_DELAY * SECOND)
  {
    RunKeeps(games, steps);
    assert PlayerOk(games[|steps|], fd);
  }
}
