/** The scores that the server announces (the-great-approximator/server_logic.cpp:252-298),
    from the coefficients, the puts and the replies of each player. */
module Scores {
  import opened Greedy
  import opened Poly
  import opened Events
  import opened Rows
  import opened Descriptors
  import opened Server
  import opened ServerRuns
  import opened Totals

  // ----- The score of a player

  /** The squared distances between a polynomial and an approximation at the first n points. */
  function ErrorAt(coefficients: seq<int>, approximation: seq<int>, n: nat): int
    requires n <= |approximation|
  {
    if n == 0 then 0
    else
      var distance := Horner(coefficients, n - 1) - approximation[n - 1];
      ErrorAt(coefficients, approximation, n - 1) + distance * distance
  }

  /** Squared error over all points and penalty, in units of 10^-14. */
  function FinalScore(p: PlayerInfo): int {
    ErrorAt(p.coefficients, p.approximations, |p.approximations|) + 100_000_000_000_000 * p.penalty
  }

  lemma {:induction false} ErrorIsSquared(coefficients: seq<int>, approximation: seq<int>, d: seq<int>, n: nat)
    requires n <= |d| == |approximation|
    requires forall x :: 0 <= x < |d| ==> d[x] == Value(coefficients, x) - approximation[x]
    ensures ErrorAt(coefficients, approximation, n) == SquaredError(d[..n])
  {
    if n > 0 {
      ErrorIsSquared(coefficients, approximation, d, n - 1);
      ValueIsHorner(coefficients, n - 1);
      assert d[..n][..n - 1] == d[..n - 1];
    }
  }

  /** The server's score of a player is its final score. */
  lemma ScoreIsFinal(K: nat, p: PlayerInfo)
    requires |p.approximations| == K + 1
    ensures Score(K, p) == FinalScore(p)
    ensures ErrorAt(p.coefficients, p.approximations, K + 1) == SquaredError(Differences(K, p))
  {
    var d := Differences(K, p);
    ErrorIsSquared(p.coefficients, p.approximations, d, K + 1);
    assert d[..K + 1] == d;
  }

  // ----- The rows of SCORING

  function RowOf(p: PlayerInfo): Row {
    Row(p.id, FinalScore(p))
  }

  function Known(s: Server): set<int> {
    set fd | fd in s.players && s.players[fd].isKnown
  }

  function KnownWith(s: Server, row: Row): set<int> {
    set fd | fd in s.players && s.players[fd].isKnown && RowOf(s.players[fd]) == row
  }

  /** One row for each known player, with its id and score, and no other row; in order. */
  ghost predicate ScoresOf(s: Server, rows: seq<Row>) {
    && InOrder(rows) && |rows| == |Known(s)|
    && forall row :: multiset(rows)[row] == |KnownWith(s, row)|
  }

  /** Of the first players, those with that row. */
  function FirstWith(s: Server, fds: seq<int>, row: Row): set<int> {
    set fd | fd in fds && fd in s.players && s.players[fd].isKnown && RowOf(s.players[fd]) == row
  }

  function FirstKnown(s: Server, fds: seq<int>): set<int> {
    set fd | fd in fds && fd in s.players && s.players[fd].isKnown
  }

  lemma OneMore(s: Server, before: seq<int>, fd: int, row: Row)
    requires fd in s.players && fd !in before
    ensures var p := s.players[fd];
            && |FirstKnown(s, before + [fd])| == |FirstKnown(s, before)| + (if p.isKnown then 1 else 0)
            && |FirstWith(s, before + [fd], row)| ==
               |FirstWith(s, before, row)| + if p.isKnown && RowOf(p) == row then 1 else 0
  {
    var p := s.players[fd];
    assert FirstKnown(s, before + [fd]) == FirstKnown(s, before) + if p.isKnown then {fd} else {};
    assert FirstWith(s, before + [fd], row) ==
           FirstWith(s, before, row) + if p.isKnown && RowOf(p) == row then {fd} else {};
  }

  lemma OneMoreRow(s: Server, before: seq<int>, fd: int, row: Row)
    requires Wf(s) && fd in s.players && forall x :: x in before ==> x in s.players
    ensures var p, rows, more := s.players[fd], KnownRows(s, before), KnownRows(s, before + [fd]);
            && |more| == |rows| + (if p.isKnown then 1 else 0)
            && multiset(more)[row] == multiset(rows)[row] + if p.isKnown && RowOf(p) == row then 1 else 0
  {
    var p := s.players[fd];
    assert PlayerWf(s, p);
    assert (before + [fd])[..|before|] == before;
    ScoreIsFinal(s.K, p);
    assert KnownRows(s, before + [fd]) == KnownRows(s, before) + if p.isKnown then [RowOf(p)] else [];
  }

  lemma {:induction false} RowsCounted(s: Server, fds: seq<int>, row: Row)
    requires Wf(s) && (forall fd :: fd in fds ==> fd in s.players)
    requires forall i, j :: 0 <= i < j < |fds| ==> fds[i] < fds[j]
    ensures multiset(KnownRows(s, fds))[row] == |FirstWith(s, fds, row)|
    ensures |KnownRows(s, fds)| == |FirstKnown(s, fds)|
  {
    if fds != [] {
      var before, fd := fds[..|fds| - 1], fds[|fds| - 1];
      assert fds == before + [fd];
      RowsCounted(s, before, row);
      OneMore(s, before, fd, row);
      OneMoreRow(s, before, fd, row);
    }
  }

  /** The end of the game announces the scores, last of all, to every known player. */
  ghost predicate Announced(s: Server, rows: seq<Row>) {
    && ScoresOf(s, rows)
    && forall fd :: fd in s.players && s.players[fd].isKnown ==>
         s.players[fd].queued != [] && s.players[fd].queued[|s.players[fd].queued| - 1] == Scoring(rows)
  }

  lemma AllCounted(s: Server, row: Row)
    requires Wf(s)
    ensures var rows := KnownRows(s, Ascending(s.players.Keys));
            multiset(rows)[row] == |KnownWith(s, row)| && |rows| == |Known(s)|
  {
    var fds := Ascending(s.players.Keys);
    RowsCounted(s, fds, row);
    assert FirstWith(s, fds, row) == KnownWith(s, row);
    assert FirstKnown(s, fds) == Known(s);
  }

  lemma SortedRows(s: Server) returns (rows: seq<Row>)
    requires Wf(s)
    ensures rows == Sort(KnownRows(s, Ascending(s.players.Keys))) && ScoresOf(s, rows)
  {
    var fds := Ascending(s.players.Keys);
    rows := Sort(KnownRows(s, fds));
    SortSorts(KnownRows(s, fds));
    forall row
      ensures multiset(rows)[row] == |KnownWith(s, row)|
    {
      AllCounted(s, row);
    }
    AllCounted(s, Row("", 0));
  }

  /** Only queues and cursors differ. */
  ghost predicate SamePeople(s: Server, r: Server) {
    && r.players.Keys == s.players.Keys
    && forall fd :: fd in s.players ==>
         var p, q := s.players[fd], r.players[fd];
         q.isKnown == p.isKnown && RowOf(q) == RowOf(p)
  }

  lemma SameScores(s: Server, r: Server, rows: seq<Row>)
    requires SamePeople(s, r) && ScoresOf(s, rows)
    ensures ScoresOf(r, rows)
  {
    assert forall fd :: fd in r.players <==> fd in r.players.Keys;
    assert forall fd :: fd in s.players <==> fd in s.players.Keys;
    assert forall fd :: fd in Known(r) <==> fd in Known(s);
    assert Known(r) == Known(s);
    forall row
      ensures multiset(rows)[row] == |KnownWith(r, row)|
    {
      assert forall fd :: fd in KnownWith(r, row) <==> fd in KnownWith(s, row);
      assert KnownWith(r, row) == KnownWith(s, row);
    }
  }

  lemma AppendRow(p: PlayerInfo, r: Reply)
    ensures RowOf(p.Append(r)) == RowOf(p)
  {
  }

  lemma EndGameOf(s: Server, rows: seq<Row>, fd: int)
    requires Wf(s) && rows == Sort(KnownRows(s, Ascending(s.players.Keys))) && fd in s.players
    ensures fd in EndGame(s).players
    ensures EndGame(s).players[fd] ==
            if s.players[fd].isKnown then s.players[fd].Append(Scoring(rows)) else s.players[fd]
  {
    AnnounceEffect(s.players, Ascending(s.players.Keys), Scoring(rows), fd);
  }

  lemma EndGamePeople(s: Server, r: Server, rows: seq<Row>)
    requires r.players.Keys == s.players.Keys
    requires forall fd :: fd in s.players ==>
               r.players[fd] == if s.players[fd].isKnown then s.players[fd].Append(Scoring(rows)) else s.players[fd]
    ensures SamePeople(s, r)
  {
    forall fd | fd in s.players
      ensures r.players[fd].isKnown == s.players[fd].isKnown && RowOf(r.players[fd]) == RowOf(s.players[fd])
    {
      AppendRow(s.players[fd], Scoring(rows));
    }
  }

  lemma EndGameAnnounces(s: Server) returns (rows: seq<Row>)
    requires Wf(s)
    ensures Announced(EndGame(s), rows)
  {
    rows := SortedRows(s);
    forall fd | fd in s.players
      ensures EndGame(s).players[fd] ==
              if s.players[fd].isKnown then s.players[fd].Append(Scoring(rows)) else s.players[fd]
    {
      EndGameOf(s, rows, fd);
    }
    EndGamePeople(s, EndGame(s), rows);
    SameScores(s, EndGame(s), rows);
  }

  /** A step that stops the game is its end; once it is over only Take and NewGame follow. */
  lemma StepAnnounces(s: Server, step: Step, now: int, before: seq<Row>) returns (rows: seq<Row>)
    requires Possible(s, step) && (s.stopping ==> Announced(s, before)) && After(s, step, now).stopping
    ensures Announced(After(s, step, now), rows)
  {
    match step {
      case Take(fd) =>
        rows := before;
        SameScores(s, After(s, step, now), rows);
      case Message(fd, request) => rows := MessageAnnounces(s, fd, request, now);
      case Tick => TimersGoOn(s, now);
      case _ =>
    }
  }

  lemma MessageAnnounces(s: Server, fd: int, request: Request, now: int) returns (rows: seq<Row>)
    requires Possible(s, Message(fd, request)) && Receive(s, fd, request, now).stopping
    ensures Announced(Receive(s, fd, request, now), rows)
  {
    var p := s.players[fd];
    if Ignored(p, request) {
      IgnoredIs(s, fd, request, now);
    } else if request.Hello? {
      HelloReceived(s, fd, request.id, request.line, now);
    } else if p.canPut && !OutOfRange(s.K, request.point, request.value) {
      AcceptedPut(s, fd, request.point, request.value, now);
      rows := EndGameAnnounces(AdvancedServer(s, fd, request.point, request.value, now));
    } else {
      RefusedPut(s, fd, request.point, request.value, now);
    }
  }

  lemma {:induction false} TimersGoOn(s: Server, now: int)
    ensures RunTimers(s, now).stopping == s.stopping
    decreases |s.events|
  {
    if Due(s, now) {
      TimersGoOn(FireFirst(s), now);
    }
  }

  // ----- Main results

  /** In every run, once the game is over each known player has been sent, last of all, one
      SCORING with the id and score of every known player. */
  lemma {:induction false} ScoresAnnounced(servers: seq<Server>, steps: seq<Step>, nows: seq<int>, n: nat)
    returns (rows: seq<Row>)
    requires IsServerRun(servers, steps, nows) && n <= |steps| && servers[n].stopping
    ensures Announced(servers[n], rows)
  {
    assert n > 0;
    var s, step, now := servers[n - 1], steps[n - 1], nows[n - 1];
    assert Possible(s, step) && servers[n] == After(s, step, now);
    var before := [];
    if s.stopping {
      before := ScoresAnnounced(servers, steps, nows, n - 1);
    }
    rows := StepAnnounces(s, step, now, before);
  }

  lemma RowIsThere(s: Server, rows: seq<Row>, fd: int)
    requires ScoresOf(s, rows) && fd in s.players && s.players[fd].isKnown
    ensures RowOf(s.players[fd]) in rows
  {
    var row := RowOf(s.players[fd]);
    assert fd in KnownWith(s, row);
    assert multiset(rows)[row] == |KnownWith(s, row)| > 0;
  }

  /** The score announced for a player is the squared error of the sums of its accepted puts,
      and 20 for each PENALTY and 10 for each BAD_PUT it has been or would have been sent. */
  lemma ScoreAccountsForAll(games: seq<Game>, steps: seq<Step>, fd: int) returns (rows: seq<Row>)
    requires IsRun(games, steps) && games[|steps|].s.stopping
    requires fd in games[|steps|].s.players && games[|steps|].s.players[fd].isKnown
    ensures Announced(games[|steps|].s, rows)
    ensures var g := games[|steps|];
            var p := g.s.players[fd];
            var badPuts := BadPuts(p.queued) + |Select(g.s.events, BadTo(p.Who(fd)))|;
            && fd in g.accepted
            && Row(p.id, ErrorAt(p.coefficients, Approximation(g.s.K, g.accepted[fd]), g.s.K + 1)
                         + 100_000_000_000_000 * (20 * Penalties(p.queued) + 10 * badPuts)) in rows
  {
    GamesAreServerRuns(games, steps);
    rows := ScoresAnnounced(ServersOf(games), steps, InstantsOf(games), |steps|);
    StateOrder(games, steps, fd);
    PenaltyAccounting(games, steps, fd);
    RowIsThere(games[|steps|].s, rows, fd);
  }
}
