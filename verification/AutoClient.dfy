/** The automatic client (the-great-approximator/client_logic.cpp): the message processor and
    the strategy thread, which share puts_without_answer and the approximation.

    `Client` is the value of the client's state and the functions say what each operation
    does to it; the class ClientLogic is the client and its methods are proved against
    them.  `at` is where the strategy thread stands: its three actions, under three
    different locks, can be interleaved with the processor. */
module AutoClient {
  import opened Greedy
  import opened Poly
  import opened Server

  datatype Strategy = Waiting | Claimed | Chosen(put: Put)

  datatype Client = Client(
    coeffs: seq<int>, K: int, kSet: bool, putsWithoutAnswer: nat,
    approximation: seq<int>, realValues: seq<int>,
    isFirstMessage: bool, gameOver: bool, failed: bool, at: Strategy)

  /** puts_without_answer starts at 1, so that nothing is put before COEFF. */
  const Fresh := Client([], 0, false, 1, [], [], true, false, false, Waiting)

  /** std::vector::resize. */
  function Resize(v: seq<int>, size: nat): (r: seq<int>)
    ensures |r| == size
    ensures forall i :: 0 <= i < size ==> r[i] == if i < |v| then v[i] else 0
  {
    seq(size, i requires 0 <= i < size => if i < |v| then v[i] else 0)
  }

  /** poly_at at the points 0, 1, ... */
  function Reals32(coeffs: seq<int>, size: nat): (r: seq<int>)
    ensures |r| == size
    ensures forall i :: 0 <= i < size ==> r[i] == Value32(coeffs, i)
  {
    seq(size, i => Value32(coeffs, i))
  }

  function Decrement(c: Client): Client {
    if c.putsWithoutAnswer > 0 then c.(putsWithoutAnswer := c.putsWithoutAnswer - 1) else c
  }

  function OnCoeff(c: Client, coefficients: seq<int>): Client {
    Decrement(c.(coeffs := coefficients, approximation := [0, 0], realValues := Reals32(coefficients, 2)))
  }

  function OnState(c: Client, values: seq<int>): Client
    requires values != []
  {
    Decrement(if c.kSet then c else
                c.(K := |values| - 1, kSet := true, approximation := Resize(c.approximation, |values|),
                   realValues := Reals32(c.coeffs, |values|)))
  }

  /** One message of the processor; `failed` stands for fatal(). */
  function Process(c: Client, m: Reply): Client
    requires m.State? ==> m.values != []
  {
    if c.isFirstMessage then
      if m.Coeff? then OnCoeff(c, m.line.coefficients).(isFirstMessage := false)
      else c.(isFirstMessage := false, failed := true)
    else
      match m
      case State(values) => OnState(c, values)
      case BadPut(_, _) => Decrement(c)
      case Scoring(_) => c.(gameOver := true)
      case _ => c
  }

  /** The strategy looks at game_over only before it waits, so a put may still be claimed
      when the game ends meanwhile. */
  predicate CanClaim(c: Client) {
    c.at == Waiting && c.putsWithoutAnswer == 0
  }

  function Claim(c: Client): Client {
    c.(putsWithoutAnswer := c.putsWithoutAnswer + 1, at := Claimed)
  }

  function Limit(c: Client): int {
    if c.kSet then c.K + 1 else 2
  }

  /** The vectors cover every point get_best_put reads. */
  predicate Covers(c: Client) {
    0 < Limit(c) <= |c.approximation| && Limit(c) <= |c.realValues|
  }

  function Missing(c: Client): (d: seq<int>)
    requires Covers(c)
    ensures |d| == Limit(c)
    ensures forall i :: 0 <= i < |d| ==> d[i] == c.realValues[i] - c.approximation[i]
  {
    seq(Limit(c), i requires 0 <= i < Limit(c) => c.realValues[i] - c.approximation[i])
  }

  function GetBestPut(c: Client): (r: (Client, Put))
    requires Covers(c)
  {
    var put := BestPut(Missing(c), Limit(c));
    (c.(approximation := c.approximation[put.point := c.approximation[put.point] + put.value]), put)
  }

  class ClientLogic {
    var coeffs: seq<int>
    var K: int
    var kSet: bool
    var putsWithoutAnswer: nat
    var currentApproximation: seq<int>
    var realValues: seq<int>
    var isFirstMessage: bool
    var gameOver: bool
    var failed: bool
    var at: Strategy

    function Contents(): Client
      reads this
    {
      Client(coeffs, K, kSet, putsWithoutAnswer, currentApproximation, realValues, isFirstMessage, gameOver, failed, at)
    }

    constructor ()
      ensures Contents() == Fresh
    {
      coeffs, K, kSet, putsWithoutAnswer := [], 0, false, 1;
      currentApproximation, realValues := [], [];
      isFirstMessage, gameOver, failed, at := true, false, false, Waiting;
    }

    method IncrementPutsWithoutAnswer()
      modifies this`putsWithoutAnswer
      ensures putsWithoutAnswer == old(putsWithoutAnswer) + 1
    {
      putsWithoutAnswer := putsWithoutAnswer + 1;
    }

    method DecrementPutsWithoutAnswer() returns (correct: bool)
      modifies this`putsWithoutAnswer
      ensures Contents() == Decrement(old(Contents()))
      ensures correct <==> old(putsWithoutAnswer) > 0
    {
      if putsWithoutAnswer > 0 {
        putsWithoutAnswer := putsWithoutAnswer - 1;
        return true;
      }
      return false;
    }

    method ProcessCoeffMessage(coefficients: seq<int>)
      modifies this
      ensures Contents() == OnCoeff(old(Contents()), coefficients)
    {
      coeffs := coefficients;
      currentApproximation := Resize(currentApproximation, 2);
      realValues := Resize(realValues, 2);
      currentApproximation := currentApproximation[0 := 0];
      currentApproximation := currentApproximation[1 := 0];
      var v0 := PolyAt(coeffs, 0);
      realValues := realValues[0 := v0];
      var v1 := PolyAt(coeffs, 1);
      realValues := realValues[1 := v1];
      assert currentApproximation == [0, 0];
      assert realValues == Reals32(coeffs, 2);
      var _ := DecrementPutsWithoutAnswer();
    }

    method ProcessStateMessage(values: seq<int>) returns (correct: bool)
      requires values != []
      modifies this
      ensures Contents() == OnState(old(Contents()), values)
      ensures correct <==> !old(kSet) || old(putsWithoutAnswer) > 0
    {
      if !kSet {
        var K' := |values| - 1;
        K := K';
        kSet := true;
        currentApproximation := Resize(currentApproximation, K' + 1);
        realValues := Resize(realValues, K' + 1);
        var i := 0;
        while i <= K'
          invariant 0 <= i <= K' + 1 == |realValues|
          invariant forall j :: 0 <= j < i ==> realValues[j] == Value32(coeffs, j)
          invariant Contents() == old(Contents()).(K := K', kSet := true, realValues := realValues,
                                                   approximation := Resize(old(currentApproximation), K' + 1))
        {
          var v := PolyAt(coeffs, i);
          realValues := realValues[i := v];
          i := i + 1;
        }
        assert realValues == Reals32(coeffs, |values|);
        var _ := DecrementPutsWithoutAnswer();
        return true;
      }
      correct := DecrementPutsWithoutAnswer();
    }

    /** One iteration of message_processor, once a message has arrived. */
    method ProcessMessage(m: Reply)
      requires m.State? ==> m.values != []
      modifies this
      ensures Contents() == Process(old(Contents()), m)
    {
      if isFirstMessage {
        isFirstMessage := false;
        var incorrectMessage := true;
        if m.Coeff? {
          ProcessCoeffMessage(m.line.coefficients);
          incorrectMessage := false;
        }
        if incorrectMessage {
          failed := true;
        }
        return;
      }
      match m {
        case BadPut(_, _) => var _ := DecrementPutsWithoutAnswer();
        case State(values) => var _ := ProcessStateMessage(values);
        case Scoring(_) => gameOver := true;
        case _ =>
      }
    }

    /** wait_for_puts and increment_puts_without_answer of one iteration of auto_strategy. */
    method ClaimPut() returns (claimed: bool)
      requires at == Waiting
      modifies this
      ensures claimed <==> CanClaim(old(Contents()))
      ensures Contents() == if claimed then Claim(old(Contents())) else old(Contents())
    {
      claimed := putsWithoutAnswer == 0;
      if claimed {
        IncrementPutsWithoutAnswer();
        at := Claimed;
      }
    }

    /** std::transform of get_best_put: the squared differences up to max_point. */
    method SquaredDifferences(maxPoint: int) returns (squares: seq<int>)
      requires Covers(Contents()) && maxPoint + 1 == Limit(Contents())
      ensures |squares| == maxPoint + 1
      ensures var d := Missing(Contents()); forall j :: 0 <= j < |squares| ==> squares[j] == d[j] * d[j]
    {
      ghost var d := Missing(Contents());
      squares := [];
      var i := 0;
      while i <= maxPoint
        invariant 0 <= i <= maxPoint + 1 && |squares| == i
        invariant forall j :: 0 <= j < i ==> squares[j] == d[j] * d[j]
      {
        SquareOfDifference(currentApproximation[i], realValues[i]);
        squares := squares + [(currentApproximation[i] - realValues[i]) * (currentApproximation[i] - realValues[i])];
        i := i + 1;
      }
    }

    /** get_best_put: the first largest squared difference gives the point, and the
        difference there, clamped, the value. */
    method BestPutNow() returns (put: Put)
      requires Covers(Contents())
      modifies this`currentApproximation
      ensures (Contents(), put) == GetBestPut(old(Contents()))
    {
      var maxPoint := if kSet then K else 1;
      ghost var d := Missing(Contents());
      assert d[..Limit(Contents())] == d;
      var squares := SquaredDifferences(maxPoint);
      var maxIdx := MaxElement(squares, d);
      var diff := realValues[maxIdx] - currentApproximation[maxIdx];
      var valueToPut := Clamp(diff);
      currentApproximation := currentApproximation[maxIdx := currentApproximation[maxIdx] + valueToPut];
      put := Put(maxIdx, valueToPut);
    }
  }

  lemma SquareOfDifference(a: int, b: int)
    ensures (a - b) * (a - b) == (b - a) * (b - a)
  {
  }

  /** std::max_element on the squares of d. */
  method MaxElement(squares: seq<int>, ghost d: seq<int>) returns (maxIdx: nat)
    requires squares != [] && |squares| == |d|
    requires forall j :: 0 <= j < |d| ==> squares[j] == d[j] * d[j]
    ensures maxIdx < |d| && maxIdx == FirstMax(d)
  {
    maxIdx := 0;
    var j := 1;
    while j < |squares|
      invariant 1 <= j <= |squares| && maxIdx == FirstMax(d[..j])
    {
      assert d[..j + 1][..j] == d[..j];
      if squares[j] > squares[maxIdx] {
        maxIdx := j;
      }
      j := j + 1;
    }
    assert d[..j] == d;
  }
}
