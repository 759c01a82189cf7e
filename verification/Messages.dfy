/** The text messages of the game: the parser createMessage with its parseMessage overrides and
    the factories that print (the-great-approximator/msg_parser.cpp:12-15, 142-382).

    `ParseLine` and `Make` say what the parser and the factories compute; MessageLoops holds
    the program's own loops, proved against them. */
module Messages {
  import opened Wrappers
  import opened Decimals
  import opened Framing
  import opened Params
  import opened Rows
  import Greedy
  import Poly

  const MAX_N := 8
  const MAX_K := 10000
  const MAX_COEFFICIENT := 100 * Greedy.SCALE

  datatype MessageType = HELLO | COEFF | PUT | BAD_PUT | STATE | PENALTY | SCORING

  datatype Message =
    | Hello(id: string)
    | Coeff(values: seq<int>)
    | Put(point: int, value: int)
    | BadPut(point: int, value: int)
    | State(values: seq<int>)
    | Penalty(point: int, value: int)
    | Scoring(rows: seq<Row>)
  {
    function Type(): MessageType {
      match this
      case Hello(_) => HELLO
      case Coeff(_) => COEFF
      case Put(_, _) => PUT
      case BadPut(_, _) => BAD_PUT
      case State(_) => STATE
      case Penalty(_, _) => PENALTY
      case Scoring(_) => SCORING
    }
  }

  predicate IsPairType(kind: MessageType) {
    kind == PUT || kind == BAD_PUT || kind == PENALTY
  }

  function PairMessage(kind: MessageType, point: int, value: int): Message
    requires IsPairType(kind)
  {
    match kind
    case PUT => Put(point, value)
    case BAD_PUT => BadPut(point, value)
    case _ => Penalty(point, value)
  }

  predicate IsAlphanumeric(s: string) {
    forall i :: 0 <= i < |s| ==> 'a' <= s[i] <= 'z' || 'A' <= s[i] <= 'Z' || IsDigit(s[i])
  }

  /** The tolerance 3e-8 is three tenths of a unit. */
  predicate CoefficientFits(v: int) {
    !(10 * v + 3 < -10 * MAX_COEFFICIENT || 10 * v - 3 > 10 * MAX_COEFFICIENT)
  }

  predicate AllFit(values: seq<int>) {
    forall i :: 0 <= i < |values| ==> CoefficientFits(values[i])
  }

  predicate IsPoint(point: int) {
    INT_MIN <= point <= Poly.INT_MAX
  }

  predicate IsId(id: string) {
    id != "" && IsAlphanumeric(id)
  }

  predicate AllIds(rows: seq<Row>) {
    forall i :: 0 <= i < |rows| ==> IsId(rows[i].id)
  }

  /** The contents a message can carry. */
  predicate Valid(m: Message) {
    match m
    case Hello(id) => IsId(id)
    case Coeff(values) => 1 <= |values| <= MAX_N + 1 && AllFit(values)
    case State(values) => 1 <= |values| <= MAX_K + 1
    case Scoring(rows) => AllIds(rows)
    case _ => IsPoint(m.point)
  }

  // ----- Parsing

  predicate AllDoubles(params: seq<string>) {
    forall i :: 0 <= i < |params| ==> ParseDouble(params[i]).Some?
  }

  function DoublesOf(params: seq<string>): (values: seq<int>)
    requires AllDoubles(params)
    ensures |values| == |params|
    ensures forall i :: 0 <= i < |params| ==> values[i] == ParseDouble(params[i]).value
  {
    seq(|params|, i requires 0 <= i < |params| && AllDoubles(params) => ParseDouble(params[i]).value)
  }

  predicate IsRowAt(params: seq<string>, i: nat)
    requires 2 * i + 1 < |params|
  {
    IsAlphanumeric(params[2 * i]) && ParseDouble(params[2 * i + 1]).Some?
  }

  function RowAt(params: seq<string>, i: nat): Row
    requires 2 * i + 1 < |params| && IsRowAt(params, i)
  {
    Row(params[2 * i], ParseDouble(params[2 * i + 1]).value)
  }

  predicate AllRows(params: seq<string>) {
    |params| % 2 == 0 && forall i :: 0 <= i < |params| / 2 ==> IsRowAt(params, i)
  }

  function RowsOf(params: seq<string>): (rows: seq<Row>)
    requires AllRows(params)
    ensures |rows| == |params| / 2
    ensures forall i :: 0 <= i < |rows| ==> rows[i] == RowAt(params, i)
  {
    seq(|params| / 2, i requires 0 <= i < |params| / 2 && AllRows(params) => RowAt(params, i))
  }

  function ReadHello(params: seq<string>): Option<Message> {
    if |params| == 1 && IsAlphanumeric(params[0]) then Some(Hello(params[0])) else None
  }

  function ReadCoeff(params: seq<string>): Option<Message> {
    if 1 <= |params| <= MAX_N + 1 && AllDoubles(params) && AllFit(DoublesOf(params))
    then Some(Coeff(DoublesOf(params))) else None
  }

  function ReadState(params: seq<string>): Option<Message> {
    if 1 <= |params| <= MAX_K + 1 && AllDoubles(params) then Some(State(DoublesOf(params))) else None
  }

  function ReadScoring(params: seq<string>): Option<Message> {
    if AllRows(params) then Some(Scoring(RowsOf(params))) else None
  }

  predicate IsPair(params: seq<string>) {
    |params| == 2 && ParseInteger(params[0]).Some? && ParseDouble(params[1]).Some?
  }

  function ReadPair(kind: MessageType, params: seq<string>): Option<Message>
    requires IsPairType(kind)
  {
    if IsPair(params) then Some(PairMessage(kind, ParseInteger(params[0]).value, ParseDouble(params[1]).value))
    else None
  }

  function ParseParams(kind: MessageType, params: seq<string>): Option<Message> {
    match kind
    case HELLO => ReadHello(params)
    case COEFF => ReadCoeff(params)
    case STATE => ReadState(params)
    case SCORING => ReadScoring(params)
    case _ => ReadPair(kind, params)
  }

  function TypeOf(command: string): Option<MessageType> {
    if command == "HELLO" then Some(HELLO)
    else if command == "COEFF" then Some(COEFF)
    else if command == "PUT" then Some(PUT)
    else if command == "BAD_PUT" then Some(BAD_PUT)
    else if command == "STATE" then Some(STATE)
    else if command == "PENALTY" then Some(PENALTY)
    else if command == "SCORING" then Some(SCORING)
    else None
  }

  predicate EndsWithCrlf(line: string) {
    |line| >= 2 && line[|line| - 2..] == CRLF
  }

  function ParseLine(line: string): Option<Message> {
    if !EndsWithCrlf(line) then None
    else
      var cut := Cut(line[..|line| - 2]);
      if cut.None? || TypeOf(cut.value.0).None? then None
      else ParseParams(TypeOf(cut.value.0).value, cut.value.1)
  }

  // ----- Printing

  function Command(kind: MessageType): string {
    match kind
    case HELLO => "HELLO"
    case COEFF => "COEFF"
    case PUT => "PUT"
    case BAD_PUT => "BAD_PUT"
    case STATE => "STATE"
    case PENALTY => "PENALTY"
    case SCORING => "SCORING"
  }

  function Doubles(values: seq<int>): (words: seq<string>)
    ensures |words| == |values|
    ensures forall i :: 0 <= i < |values| ==> words[i] == DoubleToString(values[i])
  {
    seq(|values|, i requires 0 <= i < |values| => DoubleToString(values[i]))
  }

  function Ids(rows: seq<Row>): (ids: seq<string>)
    ensures |ids| == |rows|
    ensures forall i :: 0 <= i < |rows| ==> ids[i] == rows[i].id
  {
    seq(|rows|, i requires 0 <= i < |rows| => rows[i].id)
  }

  function Scores(rows: seq<Row>): (scores: seq<int>)
    ensures |scores| == |rows|
    ensures forall i :: 0 <= i < |rows| ==> scores[i] == rows[i].score
  {
    seq(|rows|, i requires 0 <= i < |rows| => rows[i].score)
  }

  function Interleave(ids: seq<string>, numbers: seq<string>): (words: seq<string>)
    requires |ids| == |numbers|
    ensures |words| == 2 * |ids|
    ensures forall k :: 0 <= k < |words| ==> words[k] == if k % 2 == 0 then ids[k / 2] else numbers[k / 2]
  {
    seq(2 * |ids|, k requires 0 <= k < 2 * |ids| => if k % 2 == 0 then ids[k / 2] else numbers[k / 2])
  }

  function RowWords(rows: seq<Row>): seq<string> {
    Interleave(Ids(rows), Doubles(Scores(rows)))
  }

  function ParamsOf(m: Message): seq<string> {
    match m
    case Hello(id) => [id]
    case Coeff(values) => Doubles(values)
    case State(values) => Doubles(values)
    case Scoring(rows) => RowWords(rows)
    case _ => [IntegerToString(m.point), DoubleToString(m.value)]
  }

  /** What the receiver gets: the rows of SCORING in order. */
  function Normal(m: Message): Message {
    if m.Scoring? then Scoring(Sort(m.rows)) else m
  }

  function Text(m: Message): string {
    Line(Command(m.Type()), ParamsOf(Normal(m))) + CRLF
  }

  /** The factories: each prints its message and parses it back. */
  function Make(m: Message): Option<Message> {
    if (m.Coeff? || m.State?) && m.values == [] then None else ParseLine(Text(m))
  }

  // ----- The round trip

  lemma NumbersAreWords(v: int)
    ensures Word(DoubleToString(v)) && Word(IntegerToString(v))
  {
    var m := Greedy.Abs(v);
    DigitsRead(m);
    PrintedValue(v);
    var fraction := "." + Printed(v).fraction;
    assert forall i :: 0 <= i < |fraction| ==> ParamChar(fraction[i]);
  }

  lemma DoublesReadBack(values: seq<int>)
    ensures Words(Doubles(values)) && AllDoubles(Doubles(values)) && DoublesOf(Doubles(values)) == values
  {
    var words := Doubles(values);
    forall i | 0 <= i < |values|
      ensures Word(words[i]) && ParseDouble(words[i]) == Some(values[i])
    {
      NumbersAreWords(values[i]);
      DoubleRoundTrip(values[i]);
    }
  }

  lemma InterleaveWords(ids: seq<string>, numbers: seq<string>)
    requires |ids| == |numbers| && Words(ids) && Words(numbers)
    ensures Words(Interleave(ids, numbers))
  {
  }

  lemma RowReadsBack(r: Row, words: seq<string>, i: nat)
    requires 2 * i + 1 < |words| && words[2 * i] == r.id && IsAlphanumeric(r.id)
    requires ParseDouble(words[2 * i + 1]) == Some(r.score)
    ensures IsRowAt(words, i) && RowAt(words, i) == r
  {
  }

  lemma RowsOfWords(rows: seq<Row>, words: seq<string>)
    requires |words| == 2 * |rows|
    requires forall i :: 0 <= i < |rows| ==> IsRowAt(words, i) && RowAt(words, i) == rows[i]
    ensures AllRows(words) && RowsOf(words) == rows
  {
    var r := RowsOf(words);
    assert forall i :: 0 <= i < |r| ==> r[i] == RowAt(words, i) == rows[i];
  }

  lemma InterleavedRow(rows: seq<Row>, numbers: seq<string>, i: nat)
    requires |rows| == |numbers| && i < |rows| && IsId(rows[i].id) && ParseDouble(numbers[i]) == Some(rows[i].score)
    ensures IsRowAt(Interleave(Ids(rows), numbers), i) && RowAt(Interleave(Ids(rows), numbers), i) == rows[i]
  {
    var words := Interleave(Ids(rows), numbers);
    assert words[2 * i] == rows[i].id && words[2 * i + 1] == numbers[i];
    RowReadsBack(rows[i], words, i);
  }

  lemma InterleaveReadsBack(rows: seq<Row>, numbers: seq<string>)
    requires |rows| == |numbers| && AllIds(rows)
    requires forall i :: 0 <= i < |rows| ==> ParseDouble(numbers[i]) == Some(rows[i].score)
    ensures AllRows(Interleave(Ids(rows), numbers)) && RowsOf(Interleave(Ids(rows), numbers)) == rows
  {
    forall i | 0 <= i < |rows|
      ensures IsRowAt(Interleave(Ids(rows), numbers), i) && RowAt(Interleave(Ids(rows), numbers), i) == rows[i]
    {
      InterleavedRow(rows, numbers, i);
    }
    RowsOfWords(rows, Interleave(Ids(rows), numbers));
  }

  lemma IdsAreWords(rows: seq<Row>)
    requires AllIds(rows)
    ensures Words(Ids(rows))
  {
    forall i | 0 <= i < |rows|
      ensures Word(rows[i].id)
    {
      assert IsId(rows[i].id);
    }
  }

  lemma TwoWords(first: string, second: string)
    requires Word(first) && Word(second)
    ensures Words([first, second])
  {
  }

  lemma PairIsRead(kind: MessageType, first: string, second: string, point: int, value: int)
    requires IsPairType(kind) && ParseInteger(first) == Some(point) && ParseDouble(second) == Some(value)
    ensures ReadPair(kind, [first, second]) == Some(PairMessage(kind, point, value))
  {
  }

  lemma PairReadsBack(kind: MessageType, point: int, value: int)
    requires IsPairType(kind) && IsPoint(point)
    ensures var words := [IntegerToString(point), DoubleToString(value)];
            Words(words) && ReadPair(kind, words) == Some(PairMessage(kind, point, value))
  {
    NumbersAreWords(point);
    NumbersAreWords(value);
    TwoWords(IntegerToString(point), DoubleToString(value));
    IntegerRoundTrip(point);
    DoubleRoundTrip(value);
    PairIsRead(kind, IntegerToString(point), DoubleToString(value), point, value);
  }

  lemma CoeffReadsBack(values: seq<int>)
    requires 1 <= |values| <= MAX_N + 1 && AllFit(values)
    ensures Words(Doubles(values)) && ReadCoeff(Doubles(values)) == Some(Coeff(values))
  {
    DoublesReadBack(values);
  }

  lemma StateReadsBack(values: seq<int>)
    requires 1 <= |values| <= MAX_K + 1
    ensures Words(Doubles(values)) && ReadState(Doubles(values)) == Some(State(values))
  {
    DoublesReadBack(values);
  }

  lemma ScoringReadsBack(rows: seq<Row>)
    requires AllIds(rows)
    ensures Words(RowWords(rows)) && ReadScoring(RowWords(rows)) == Some(Scoring(rows))
  {
    DoublesReadBack(Scores(rows));
    IdsAreWords(rows);
    InterleaveWords(Ids(rows), Doubles(Scores(rows)));
    assert forall i :: 0 <= i < |rows| ==> DoublesOf(Doubles(Scores(rows)))[i] == rows[i].score;
    InterleaveReadsBack(rows, Doubles(Scores(rows)));
  }

  lemma HelloReadsBack(id: string)
    requires IsId(id)
    ensures Words([id]) && ReadHello([id]) == Some(Hello(id))
  {
  }

  lemma PairParams(m: Message)
    requires IsPairType(m.Type())
    ensures ParamsOf(m) == [IntegerToString(m.point), DoubleToString(m.value)]
    ensures PairMessage(m.Type(), m.point, m.value) == m
    ensures forall words :: ParseParams(m.Type(), words) == ReadPair(m.Type(), words)
    ensures Valid(m) ==> IsPoint(m.point)
  {
  }

  lemma PairParamsReadBack(m: Message)
    requires Valid(m) && IsPairType(m.Type())
    ensures Words(ParamsOf(m)) && ParseParams(m.Type(), ParamsOf(m)) == Some(m)
  {
    PairParams(m);
    PairReadsBack(m.Type(), m.point, m.value);
  }

  lemma ListReadsBack(m: Message)
    requires Valid(m) && !IsPairType(m.Type())
    ensures Words(ParamsOf(m)) && ParseParams(m.Type(), ParamsOf(m)) == Some(m)
  {
    match m
    case Hello(id) => HelloReadsBack(id);
    case Coeff(values) => CoeffReadsBack(values);
    case State(values) => StateReadsBack(values);
    case Scoring(rows) => ScoringReadsBack(rows);
  }

  /** The parser of a message type undoes the printer of its parameters. */
  lemma ParamsReadBack(m: Message)
    requires Valid(m)
    ensures Words(ParamsOf(m)) && ParseParams(m.Type(), ParamsOf(m)) == Some(m)
  {
    if IsPairType(m.Type()) {
      PairParamsReadBack(m);
    } else {
      ListReadsBack(m);
    }
  }

  lemma CommandReadsBack(kind: MessageType)
    ensures IsCommand(Command(kind)) && TypeOf(Command(kind)) == Some(kind)
  {
  }

  lemma LineReadsBack(kind: MessageType, words: seq<string>)
    requires Words(words)
    ensures ParseLine(Line(Command(kind), words) + CRLF) == ParseParams(kind, words)
  {
    var line := Line(Command(kind), words);
    assert (line + CRLF)[..|line + CRLF| - 2] == line;
    assert (line + CRLF)[|line + CRLF| - 2..] == CRLF;
    CommandReadsBack(kind);
    CutLanguage(line, Command(kind), words);
  }

  lemma PermutedIds(rows: seq<Row>, permuted: seq<Row>)
    requires multiset(rows) == multiset(permuted) && AllIds(rows)
    ensures AllIds(permuted)
  {
    forall i | 0 <= i < |permuted|
      ensures IsId(permuted[i].id)
    {
      assert permuted[i] in multiset(permuted);
      assert permuted[i] in rows;
    }
  }

  lemma NormalKeepsValid(m: Message)
    ensures Valid(Normal(m)) <==> Valid(m)
  {
    if m.Scoring? && AllIds(m.rows) {
      PermutedIds(m.rows, Sort(m.rows));
    }
    if m.Scoring? && AllIds(Sort(m.rows)) {
      PermutedIds(Sort(m.rows), m.rows);
    }
  }

  /** Every valid message is read back from its text; SCORING in the order of its ids. */
  lemma RoundTrip(m: Message)
    requires Valid(m)
    ensures ParseLine(Text(m)) == Some(Normal(m))
  {
    NormalKeepsValid(m);
    ParamsReadBack(Normal(m));
    LineReadsBack(m.Type(), ParamsOf(Normal(m)));
  }

  lemma ParsedRowsAreValid(params: seq<string>)
    requires Words(params) && AllRows(params)
    ensures AllIds(RowsOf(params))
  {
    forall i | 0 <= i < |params| / 2
      ensures IsId(RowsOf(params)[i].id)
    {
      assert IsRowAt(params, i) && Word(params[2 * i]);
    }
  }

  lemma ParsedParamsAreValid(kind: MessageType, params: seq<string>)
    requires Words(params) && ParseParams(kind, params).Some?
    ensures Valid(ParseParams(kind, params).value)
  {
    if kind == SCORING {
      ParsedRowsAreValid(params);
    }
  }

  /** The parser lets nothing else through. */
  lemma ParsedIsValid(line: string)
    requires ParseLine(line).Some?
    ensures Valid(ParseLine(line).value)
  {
    var cut := Cut(line[..|line| - 2]).value;
    CutLanguage(line[..|line| - 2], cut.0, cut.1);
    ParsedParamsAreValid(TypeOf(cut.0).value, cut.1);
  }

  /** A factory gives the message it was asked for exactly when the contents are valid. */
  lemma FactoryExact(m: Message)
    ensures Make(m) == Some(Normal(m)) <==> Valid(m)
  {
    NormalKeepsValid(m);
    if Valid(m) {
      RoundTrip(m);
    }
    if Make(m) == Some(Normal(m)) {
      ParsedIsValid(Text(m));
    }
  }
}
