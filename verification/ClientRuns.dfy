/** The automatic client against any server: whatever messages come, in whatever order the
    processor and the strategy thread take their turns (the-great-approximator/
    client_logic.cpp:162-170, 247-420). */
module ClientRuns {
  import Poly
  import opened Server
  import opened AutoClient
  import opened Session

  datatype Turn = Processes(m: Reply) | Claims | Chooses | Sends

  /** The client, every message it has processed and how many puts it has claimed. */
  datatype Auto = Auto(c: Client, processed: seq<Reply>, claimed: nat)

  /** Both threads end with the game, the strategy only before it waits for its next put. */
  predicate May(x: Auto, t: Turn) {
    && !x.c.failed
    && match t
       case Processes(m) => !x.c.gameOver && Readable(m)
       case Claims => CanClaim(x.c)
       case Chooses => x.c.at == Claimed
       case Sends => x.c.at.Chosen?
  }

  function After(x: Auto, t: Turn): Auto
    requires May(x, t)
  {
    match t
    case Processes(m) => x.(c := Process(x.c, m), processed := x.processed + [m])
    case Claims => x.(c := Claim(x.c), claimed := x.claimed + 1)
    case Chooses => x.(c := Choose(x.c))
    case Sends => x.(c := x.c.(at := Waiting))
  }

  ghost predicate IsAutoRun(xs: seq<Auto>, turns: seq<Turn>) {
    && |xs| == |turns| + 1 && xs[0] == Auto(Fresh, [], 0)
    && forall k :: 0 <= k < |turns| ==> May(xs[k], turns[k]) && xs[k + 1] == After(xs[k], turns[k])
  }

  /** The messages that let the client put again: the first, COEFF, and each STATE and BAD_PUT
      after it. */
  function Answers(processed: seq<Reply>): nat {
    if processed == [] then 0
    else
      var k := |processed| - 1;
      var m := processed[k];
      Answers(processed[..k]) + if (if k == 0 then m.Coeff? else m.State? || m.BadPut?) then 1 else 0
  }

  function StatesAmong(processed: seq<Reply>): seq<Reply> {
    if processed == [] then []
    else
      var m := processed[|processed| - 1];
      StatesAmong(processed[..|processed| - 1]) + if m.State? then [m] else []
  }

  /** What the processed messages alone decide. */
  ghost predicate Told(c: Client, ms: seq<Reply>) {
    && (c.isFirstMessage <==> ms == [])
    && (c.failed <==> ms != [] && !ms[0].Coeff?)
    && (c.gameOver <==> !c.failed && exists i :: 1 <= i < |ms| && ms[i].Scoring?)
    && (ms == [] ==> !c.kSet && c.approximation == c.realValues == [])
    && (ms != [] && !c.failed ==>
          && c.coeffs == ms[0].line.coefficients
          && var states := StatesAmong(ms);
          && (c.kSet <==> states != [])
          && (c.kSet ==> states[0].State? && |states[0].values| > 0 && c.K == |states[0].values| - 1)
          && |c.approximation| == |c.realValues| == (if c.kSet then c.K + 1 else 2)
          && forall x :: 0 <= x < |c.realValues| ==> c.realValues[x] == Poly.Value32(c.coeffs, x))
  }

  /** The counter of the strategy: never more puts than answers. */
  ghost predicate Counts(x: Auto) {
    && x.c.putsWithoutAnswer <= 1 && x.claimed <= Answers(x.processed)
    && 1 + x.claimed <= x.c.putsWithoutAnswer + Answers(x.processed)
    && (x.c.at != Waiting ==> x.claimed >= 1)
  }

  /** Never more answers than puts: COEFF, and one for each put claimed. */
  predicate Prompted(x: Auto) {
    Answers(x.processed) <= 1 + x.claimed
  }

  lemma AnswersStep(ms: seq<Reply>, m: Reply)
    ensures Answers(ms + [m]) == Answers(ms) + if (if ms == [] then m.Coeff? else m.State? || m.BadPut?) then 1 else 0
    ensures StatesAmong(ms + [m]) == StatesAmong(ms) + if m.State? then [m] else []
  {
    assert (ms + [m])[..|ms|] == ms;
  }

  lemma {:induction false} StatesAreStates(ms: seq<Reply>)
    ensures forall i :: 0 <= i < |StatesAmong(ms)| ==> StatesAmong(ms)[i].State?
  {
    if ms != [] {
      StatesAreStates(ms[..|ms| - 1]);
    }
  }

  lemma ToldStep(c: Client, ms: seq<Reply>, m: Reply)
    requires Told(c, ms) && !c.failed && !c.gameOver && Readable(m)
    ensures Told(Process(c, m), ms + [m])
  {
    AnswersStep(ms, m);
    StatesAreStates(ms + [m]);
    var r, more := Process(c, m), ms + [m];
    if ms != [] {
      assert more[0] == ms[0];
      assert r.gameOver <==> m.Scoring?;
      assert m.Scoring? ==> more[|ms|].Scoring?;
      if !m.Scoring? {
        forall i | 1 <= i < |more|
          ensures !more[i].Scoring?
        {
          assert i < |ms| ==> more[i] == ms[i];
        }
      }
    }
  }

  /** An answer takes the counter down, unless it is down already. */
  lemma AnswerCounts(c: Client, ms: seq<Reply>, m: Reply)
    requires Told(c, ms) && !c.failed && Readable(m)
    ensures var answers := Answers(ms + [m]) - Answers(ms);
            && 0 <= answers <= 1 && Process(c, m).at == c.at
            && Process(c, m).putsWithoutAnswer ==
               if c.putsWithoutAnswer > 0 then c.putsWithoutAnswer - answers else 0
  {
    AnswersStep(ms, m);
  }

  lemma CountsStep(x: Auto, t: Turn)
    requires May(x, t) && Told(x.c, x.processed) && Counts(x)
    ensures Counts(After(x, t))
  {
    if t.Processes? {
      AnswerCounts(x.c, x.processed, t.m);
    }
  }

  ghost predicate Exact(x: Auto) {
    x.c.putsWithoutAnswer + Answers(x.processed) == 1 + x.claimed
  }

  lemma ExactStep(x: Auto, t: Turn, y: Auto)
    requires May(x, t) && Told(x.c, x.processed) && y == After(x, t) && Exact(x)
    requires Prompted(y)
    ensures Exact(y)
  {
    if t.Processes? {
      AnswerCounts(x.c, x.processed, t.m);
    }
  }

  /** The vectors always cover what get_best_put reads. */
  lemma NeverBeyond(c: Client, ms: seq<Reply>)
    requires Told(c, ms) && !c.failed && ms != []
    ensures Covers(c)
  {
    StatesAreStates(ms);
  }

  lemma TurnTold(x: Auto, t: Turn)
    requires May(x, t) && Told(x.c, x.processed) && Counts(x)
    ensures Told(After(x, t).c, After(x, t).processed)
  {
    match t {
      case Processes(m) => ToldStep(x.c, x.processed, m);
      case Chooses =>
        assert x.processed != [];
        NeverBeyond(x.c, x.processed);
      case _ =>
    }
  }

  lemma {:induction false} RunTold(xs: seq<Auto>, turns: seq<Turn>, n: nat)
    requires IsAutoRun(xs, turns) && n <= |turns|
    ensures Told(xs[n].c, xs[n].processed) && Counts(xs[n])
  {
    if n > 0 {
      RunTold(xs, turns, n - 1);
      TurnTold(xs[n - 1], turns[n - 1]);
      CountsStep(xs[n - 1], turns[n - 1]);
    }
  }

  // ----- Main results

  /** Against any server: the client gives up when and only when its first message is not
      COEFF, and never because get_best_put would read beyond its vectors; it ends with
      SCORING and only with it; it knows the coefficients of COEFF and K from its first STATE;
      and it never claims a put before the one before has been answered. */
  lemma AgainstAnyServer(xs: seq<Auto>, turns: seq<Turn>)
    requires IsAutoRun(xs, turns)
    ensures var x := xs[|turns|];
            && Told(x.c, x.processed) && x.claimed <= Answers(x.processed)
            && (x.c.at == Claimed && !x.c.failed ==> Covers(x.c))
  {
    RunTold(xs, turns, |turns|);
    var x := xs[|turns|];
    if x.c.at == Claimed && !x.c.failed {
      NeverBeyond(x.c, x.processed);
    }
  }

  lemma {:induction false} CountedExactly(xs: seq<Auto>, turns: seq<Turn>, n: nat)
    requires IsAutoRun(xs, turns) && n <= |turns| && forall k :: 0 <= k <= n ==> Prompted(xs[k])
    ensures Exact(xs[n])
  {
    if n > 0 {
      RunTold(xs, turns, n - 1);
      CountedExactly(xs, turns, n - 1);
      ExactStep(xs[n - 1], turns[n - 1], xs[n]);
    }
  }

  /** Progress: when the server answers nothing but COEFF and the client's puts, the client may
      put exactly when all its puts have been answered. */
  lemma PutsWhenAnswered(xs: seq<Auto>, turns: seq<Turn>, n: nat)
    requires IsAutoRun(xs, turns) && n <= |turns| && forall k :: 0 <= k <= n ==> Prompted(xs[k])
    ensures CanClaim(xs[n].c) <==> xs[n].c.at == Waiting && Answers(xs[n].processed) == 1 + xs[n].claimed
  {
    CountedExactly(xs, turns, n);
    assert Exact(xs[n]);
  }
}
