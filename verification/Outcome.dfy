/** The outcome of a game for an automatic player: what the SCORING that it is sent says. */
module Outcome {
  import opened Greedy
  import opened Rows
  import opened Server
  import opened Scores
  import N = Network
  import R = ServerRuns
  import S = Session
  import T = Totals

  lemma AppliedAnnounces(g: R.Game, step: R.Step, now: int, before: seq<Row>) returns (rows: seq<Row>)
    requires R.Enabled(g, step, now) && (g.s.stopping ==> Announced(g.s, before))
    ensures R.Apply(g, step, now).s.stopping ==> Announced(R.Apply(g, step, now).s, rows)
  {
    T.ApplyIsAfter(g, step, now);
    rows := before;
    if R.Apply(g, step, now).s.stopping {
      rows := StepAnnounces(g.s, step, now, before);
    }
  }

  lemma MoveAnnounces(who: Identity, x: S.Session, m: S.Move, before: seq<Row>) returns (rows: seq<Row>)
    requires S.Enabled(who, x, m) && (x.g.s.stopping ==> Announced(x.g.s, before))
    ensures S.Apply(who, x, m).g.s.stopping ==> Announced(S.Apply(who, x, m).g.s, rows)
  {
    match m {
      case ServerMove(step, now) => rows := AppliedAnnounces(x.g, step, now, before);
      case Read(line, now) =>
        rows := AppliedAnnounces(x.g, R.Message(who.fd, S.ToRequest(x.toServer[0], line)), now, before);
      case _ => rows := before;
    }
  }

  lemma {:induction false} SessionAnnounces(who: Identity, id: string, games: seq<R.Game>, steps: seq<R.Step>,
                                            xs: seq<S.Session>, moves: seq<S.Move>, n: nat)
    returns (rows: seq<Row>)
    requires S.IsSession(who, id, games, steps, xs, moves) && n <= |moves|
    ensures xs[n].g.s.stopping ==> Announced(xs[n].g.s, rows)
  {
    rows := [];
    if n > 0 {
      var before := SessionAnnounces(who, id, games, steps, xs, moves, n - 1);
      rows := MoveAnnounces(who, xs[n - 1], moves[n - 1], before);
    } else if xs[0].g.s.stopping {
      T.GamesAreServerRuns(games, steps);
      rows := ScoresAnnounced(T.ServersOf(games), steps, T.InstantsOf(games), |steps|);
    }
  }

  /** Once the game is over, a known automatic player with n accepted puts has been sent, last
      of all, a SCORING in which its own score is its squared error alone, and no more than any
      n legal puts could reach, the first of them at point 0 or 1. */
  lemma OptimalScoreAnnounced(who: Identity, id: string, games: seq<R.Game>, steps: seq<R.Step>, xs: seq<S.Session>,
                              moves: seq<S.Move>, plan: seq<Put>) returns (rows: seq<Row>)
    requires S.IsSession(who, id, games, steps, xs, moves) && S.Fits(xs[0].g.s) && S.Alive(who, xs[|moves|])
    requires var s := xs[|moves|].g.s;
             && s.stopping && s.players[who.fd].isKnown && LegalPlan(plan, s.K + 1)
             && |plan| == s.players[who.fd].correctPuts && (plan != [] ==> plan[0].point < 2)
    ensures var s := xs[|moves|].g.s;
            var p := s.players[who.fd];
            && Announced(s, rows) && |p.approximations| == s.K + 1
            && var score := ErrorAt(p.coefficients, p.approximations, s.K + 1);
            Row(p.id, score) in rows && score <= SquaredError(ApplyPlan(S.Reals(s.K, p.coefficients), plan))
  {
    rows := SessionAnnounces(who, id, games, steps, xs, moves, |moves|);
    S.AutoPlayerIsOptimal(who, id, games, steps, xs, moves, plan);
    var s := xs[|moves|].g.s;
    ScoreIsFinal(s.K, s.players[who.fd]);
    RowIsThere(s, rows, who.fd);
  }

  /** The same over the network. */
  lemma OptimalScoreOverNetwork(who: Identity, id: string, games: seq<R.Game>, steps: seq<R.Step>, round: int -> int,
                                nets: seq<N.Net>, moves: seq<N.Move>, plan: seq<Put>) returns (rows: seq<Row>)
    requires N.IsRun(who, id, games, steps, round, nets, moves) && S.Fits(nets[0].g.s) && N.Alive(who, nets[|moves|])
    requires var s := nets[|moves|].g.s;
             && s.stopping && s.players[who.fd].isKnown && LegalPlan(plan, s.K + 1)
             && |plan| == s.players[who.fd].correctPuts && (plan != [] ==> plan[0].point < 2)
    ensures var s := nets[|moves|].g.s;
            var p := s.players[who.fd];
            && Announced(s, rows) && |p.approximations| == s.K + 1
            && var score := ErrorAt(p.coefficients, p.approximations, s.K + 1);
            Row(p.id, score) in rows && score <= SquaredError(ApplyPlan(S.Reals(s.K, p.coefficients), plan))
  {
    var xs, ms := N.RunsAreSessions(who, id, games, steps, round, nets, moves);
    rows := OptimalScoreAnnounced(who, id, games, steps, xs, ms, plan);
  }
}
