/** The parser's and the factories' own loops (the-great-approximator/msg_parser.cpp:142-382),
    proved against what Messages says they compute. */
module MessageLoops {
  import opened Wrappers
  import opened Decimals
  import opened Framing
  import opened Params
  import opened Rows
  import opened Messages

  // ----- parseMessage

  lemma DoublesAre(params: seq<string>, values: seq<int>)
    requires |values| == |params| && forall i :: 0 <= i < |params| ==> ParseDouble(params[i]) == Some(values[i])
    ensures AllDoubles(params) && DoublesOf(params) == values
  {
  }

  lemma NotADouble(params: seq<string>, i: nat)
    requires i < |params| && ParseDouble(params[i]).None?
    ensures ReadCoeff(params) == None && ReadState(params) == None
  {
  }

  lemma NotACoefficient(params: seq<string>, i: nat, v: int)
    requires i < |params| && ParseDouble(params[i]) == Some(v) && !CoefficientFits(v)
    ensures ReadCoeff(params) == None
  {
    if AllDoubles(params) {
      assert !CoefficientFits(DoublesOf(params)[i]);
    }
  }

  method ParseCoeff(params: seq<string>) returns (msg: Option<Message>)
    ensures msg == ReadCoeff(params)
  {
    if |params| < 1 || |params| > MAX_N + 1 {
      return None;
    }
    var coeffs: seq<int> := [];
    for i := 0 to |params|
      invariant |coeffs| == i && AllFit(coeffs)
      invariant forall j :: 0 <= j < i ==> ParseDouble(params[j]) == Some(coeffs[j])
    {
      var parsed := ParseDouble(params[i]);
      if parsed.None? {
        NotADouble(params, i);
        return None;
      }
      coeffs := coeffs + [parsed.value];
      assert forall j :: 0 <= j <= i ==> ParseDouble(params[j]) == Some(coeffs[j]);
      if 10 * parsed.value + 3 < -10 * MAX_COEFFICIENT || 10 * parsed.value - 3 > 10 * MAX_COEFFICIENT {
        NotACoefficient(params, i, parsed.value);
        return None;
      }
    }
    DoublesAre(params, coeffs);
    return Some(Coeff(coeffs));
  }

  method ParseState(params: seq<string>) returns (msg: Option<Message>)
    ensures msg == ReadState(params)
  {
    if |params| < 1 || |params| > MAX_K + 1 {
      return None;
    }
    var values: seq<int> := [];
    for i := 0 to |params|
      invariant |values| == i
      invariant forall j :: 0 <= j < i ==> ParseDouble(params[j]) == Some(values[j])
    {
      var parsed := ParseDouble(params[i]);
      if parsed.None? {
        NotADouble(params, i);
        return None;
      }
      values := values + [parsed.value];
    }
    DoublesAre(params, values);
    return Some(State(values));
  }

  method ParseRow(params: seq<string>, i: nat) returns (row: Option<Row>)
    requires 2 * i + 1 < |params|
    ensures row == if IsRowAt(params, i) then Some(RowAt(params, i)) else None
  {
    if !IsAlphanumeric(params[i * 2]) {
      return None;
    }
    var score := ParseDouble(params[i * 2 + 1]);
    if score.None? {
      return None;
    }
    return Some(Row(params[i * 2], score.value));
  }

  method ParseScoring(params: seq<string>) returns (msg: Option<Message>)
    ensures msg == ReadScoring(params)
  {
    var numPlayers := |params| / 2;
    if numPlayers * 2 != |params| {
      return None;
    }
    var rows: seq<Row> := [];
    for i := 0 to numPlayers
      invariant |rows| == i
      invariant forall j :: 0 <= j < i ==> IsRowAt(params, j) && RowAt(params, j) == rows[j]
    {
      var row := ParseRow(params, i);
      if row.None? {
        return None;
      }
      rows := rows + [row.value];
    }
    RowsOfWords(rows, params);
    return Some(Scoring(rows));
  }

  /** createMessage. */
  method CreateMessage(line: string) returns (msg: Option<Message>)
    ensures msg == ParseLine(line)
  {
    if |line| < 2 || line[|line| - 2..] != CRLF {
      return None;
    }
    var parts := ExtractCommand(line[..|line| - 2]);
    if parts.None? {
      return None;
    }
    var params := SplitParams(parts.value.1);
    if params.None? {
      return None;
    }
    var kind := TypeOf(parts.value.0);
    if kind.None? {
      return None;
    }
    match kind.value
    case COEFF => msg := ParseCoeff(params.value);
    case STATE => msg := ParseState(params.value);
    case SCORING => msg := ParseScoring(params.value);
    case _ => msg := ParseParams(kind.value, params.value);
  }

  // ----- Factories

  /** What the factories build: every word followed by a space. */
  function Spaced(words: seq<string>): string {
    if words == [] then "" else Spaced(words[..|words| - 1]) + (words[|words| - 1] + " ")
  }

  lemma SpacedAppend(words: seq<string>, w: string)
    ensures Spaced(words + [w]) == Spaced(words) + (w + " ")
  {
    assert (words + [w])[..|words|] == words;
  }

  lemma {:induction false} JoinAppend(words: seq<string>, w: string)
    requires words != []
    ensures Join(words + [w]) == Join(words) + (" " + w)
  {
    var all := words + [w];
    assert all[1..] == words[1..] + [w];
    if |words| > 1 {
      JoinAppend(words[1..], w);
    }
  }

  /** Without its last space it is the joined words. */
  lemma {:induction false} SpacedIsJoin(words: seq<string>)
    requires words != []
    ensures Spaced(words) == Join(words) + " "
  {
    var front, w := words[..|words| - 1], words[|words| - 1];
    if front == [] {
      assert Spaced(front) == "" && words == [w];
    } else {
      SpacedIsJoin(front);
      JoinAppend(front, w);
      assert front + [w] == words;
      assert Join(front) + " " + (w + " ") == Join(front) + (" " + w) + " ";
    }
  }

  /** pop_back on a command followed by spaced words leaves the line. */
  lemma PopBack(command: string, words: seq<string>)
    ensures var s := command + (" " + Spaced(words)); s[..|s| - 1] == Line(command, words)
  {
    if words == [] {
      assert Spaced(words) == "";
    } else {
      SpacedIsJoin(words);
    }
  }

  lemma SpacedDoubles(values: seq<int>, i: nat)
    requires i < |values|
    ensures Spaced(Doubles(values[..i + 1])) == Spaced(Doubles(values[..i])) + (DoubleToString(values[i]) + " ")
  {
    SpacedAppend(Doubles(values[..i]), DoubleToString(values[i]));
    assert Doubles(values[..i + 1]) == Doubles(values[..i]) + [DoubleToString(values[i])];
  }

  lemma ListText(m: Message, s: string)
    requires (m.Coeff? || m.State?) && m.values != [] && s == Spaced(Doubles(m.values))
    ensures |s| >= 1 && Text(m) == Command(m.Type()) + (" " + s[..|s| - 1]) + CRLF
  {
    SpacedIsJoin(Doubles(m.values));
  }

  method CoeffLine(coeffs: seq<int>) returns (line: string)
    requires coeffs != []
    ensures line == Text(Coeff(coeffs))
  {
    var s := "";
    for i := 0 to |coeffs|
      invariant s == Spaced(Doubles(coeffs[..i]))
    {
      SpacedDoubles(coeffs, i);
      s := s + (DoubleToString(coeffs[i]) + " ");
    }
    assert coeffs[..|coeffs|] == coeffs;
    ListText(Coeff(coeffs), s);
    s := s[..|s| - 1];
    line := "COEFF" + (" " + s) + CRLF;
  }

  method CreateCoeff(coeffs: seq<int>) returns (msg: Option<Message>)
    ensures msg == Make(Coeff(coeffs))
  {
    if coeffs == [] {
      return None;
    }
    var line := CoeffLine(coeffs);
    msg := CreateMessage(line);
  }

  method StateLine(approxValues: seq<int>) returns (line: string)
    requires approxValues != []
    ensures line == Text(State(approxValues))
  {
    var s := "";
    for i := 0 to |approxValues|
      invariant s == Spaced(Doubles(approxValues[..i]))
    {
      SpacedDoubles(approxValues, i);
      s := s + (DoubleToString(approxValues[i]) + " ");
    }
    assert approxValues[..|approxValues|] == approxValues;
    ListText(State(approxValues), s);
    s := s[..|s| - 1];
    line := "STATE" + (" " + s) + CRLF;
  }

  method CreateState(approxValues: seq<int>) returns (msg: Option<Message>)
    ensures msg == Make(State(approxValues))
  {
    if approxValues == [] {
      return None;
    }
    var line := StateLine(approxValues);
    msg := CreateMessage(line);
  }

  function Zip(ids: seq<string>, scores: seq<int>): (rows: seq<Row>)
    requires |ids| == |scores|
    ensures |rows| == |ids| && forall i :: 0 <= i < |rows| ==> rows[i] == Row(ids[i], scores[i])
  {
    seq(|ids|, i requires 0 <= i < |ids| => Row(ids[i], scores[i]))
  }

  lemma InterleaveAppend(ids: seq<string>, numbers: seq<string>, id: string, number: string)
    requires |ids| == |numbers|
    ensures Interleave(ids + [id], numbers + [number]) == Interleave(ids, numbers) + [id] + [number]
  {
  }

  lemma SpacedRows(rows: seq<Row>, i: nat)
    requires i < |rows|
    ensures Spaced(RowWords(rows[..i + 1])) ==
            Spaced(RowWords(rows[..i])) + (rows[i].id + " ") + (DoubleToString(rows[i].score) + " ")
  {
    var front, r := rows[..i], rows[i];
    var number := DoubleToString(r.score);
    assert Ids(rows[..i + 1]) == Ids(front) + [r.id];
    assert Scores(rows[..i + 1]) == Scores(front) + [r.score];
    assert Doubles(Scores(front) + [r.score]) == Doubles(Scores(front)) + [number];
    InterleaveAppend(Ids(front), Doubles(Scores(front)), r.id, number);
    SpacedAppend(RowWords(front), r.id);
    SpacedAppend(RowWords(front) + [r.id], number);
  }

  lemma Append(command: string, s: string, a: string, b: string)
    ensures command + (" " + s) + a + b == command + (" " + (s + a + b))
  {
  }

  method ScoringLine(playerScores: seq<Row>) returns (line: string)
    ensures line == Line("SCORING", RowWords(playerScores)) + CRLF
  {
    var s := "SCORING" + " ";
    for i := 0 to |playerScores|
      invariant s == "SCORING" + (" " + Spaced(RowWords(playerScores[..i])))
    {
      SpacedRows(playerScores, i);
      Append("SCORING", Spaced(RowWords(playerScores[..i])), playerScores[i].id + " ",
             DoubleToString(playerScores[i].score) + " ");
      s := s + (playerScores[i].id + " ") + (DoubleToString(playerScores[i].score) + " ");
    }
    assert playerScores[..|playerScores|] == playerScores;
    PopBack("SCORING", RowWords(playerScores));
    line := s[..|s| - 1] + CRLF;
  }

  lemma ScoringText(rows: seq<Row>)
    ensures Text(Scoring(rows)) == Line("SCORING", RowWords(Sort(rows))) + CRLF
  {
    var m := Scoring(rows);
    assert Normal(m) == Scoring(Sort(rows));
    assert ParamsOf(Normal(m)) == RowWords(Sort(rows));
    assert Command(m.Type()) == "SCORING";
  }

  lemma MakeScoring(rows: seq<Row>, line: string)
    requires line == Line("SCORING", RowWords(Sort(rows))) + CRLF
    ensures Make(Scoring(rows)) == ParseLine(line)
  {
    ScoringText(rows);
  }

  method CreateScoring(ids: seq<string>, scores: seq<int>) returns (msg: Option<Message>)
    ensures msg == if |ids| != |scores| then None else Make(Scoring(Zip(ids, scores)))
  {
    if |ids| != |scores| {
      return None;
    }
    var playerScores: seq<Row> := [];
    for i := 0 to |ids|
      invariant playerScores == Zip(ids, scores)[..i]
    {
      playerScores := playerScores + [Row(ids[i], scores[i])];
    }
    assert playerScores == Zip(ids, scores);
    var line := ScoringLine(Sort(playerScores));
    MakeScoring(playerScores, line);
    msg := CreateMessage(line);
  }
}
