/** The grammar of the text protocol: exactly which lines are messages, and which message each
    of them is (the-great-approximator/msg_parser.cpp:17-312), with the limits of the protocol
    in lattice units. */
module Grammar {
  import opened Wrappers
  import opened Decimals
  import opened Params
  import opened Messages
  import opened Rows

  predicate Alphanumeric(c: char) {
    '0' <= c <= '9' || 'a' <= c <= 'z' || 'A' <= c <= 'Z'
  }

  predicate IsWord(w: string) {
    |w| > 0 && forall i :: 0 <= i < |w| ==> Alphanumeric(w[i]) || w[i] in {'-', '.'}
  }

  /** Every word after exactly one space. */
  function Spaced(words: seq<string>): string {
    if words == [] then "" else " " + words[0] + Spaced(words[1..])
  }

  function Name(m: Message): string {
    match m
    case Hello(_) => "HELLO"
    case Coeff(_) => "COEFF"
    case Put(_, _) => "PUT"
    case BadPut(_, _) => "BAD_PUT"
    case State(_) => "STATE"
    case Penalty(_, _) => "PENALTY"
    case Scoring(_) => "SCORING"
  }

  predicate IsNumber(word: string, value: int) {
    ParseDouble(word) == Some(value)
  }

  predicate AreNumbers(words: seq<string>, values: seq<int>) {
    |words| == |values| && forall i :: 0 <= i < |words| ==> IsNumber(words[i], values[i])
  }

  predicate IsPutOf(words: seq<string>, point: int, value: int) {
    |words| == 2 && ParseInteger(words[0]) == Some(point) && IsNumber(words[1], value)
  }

  predicate IsName(word: string) {
    forall i :: 0 <= i < |word| ==> Alphanumeric(word[i])
  }

  /** The words after the name of a message. */
  predicate Spells(words: seq<string>, m: Message) {
    match m
    case Hello(id) => words == [id] && IsName(id)
    case Coeff(values) =>
      && 1 <= |words| <= 9 && AreNumbers(words, values)
      && forall i :: 0 <= i < |values| ==> -1_000_000_000 <= values[i] <= 1_000_000_000
    case State(values) => 1 <= |words| <= 10_001 && AreNumbers(words, values)
    case Scoring(rows) =>
      && |words| == 2 * |rows|
      && forall i :: 0 <= i < |rows| ==>
           words[2 * i] == rows[i].id && IsName(rows[i].id) && IsNumber(words[2 * i + 1], rows[i].score)
    case Put(point, value) => IsPutOf(words, point, value)
    case BadPut(point, value) => IsPutOf(words, point, value)
    case Penalty(point, value) => IsPutOf(words, point, value)
  }

  // ----- Words and lines

  lemma SameWord(w: string)
    ensures Word(w) <==> IsWord(w)
  {
    assert forall i :: 0 <= i < |w| ==> (ParamChar(w[i]) <==> Alphanumeric(w[i]) || w[i] in {'-', '.'});
  }

  lemma {:induction false} JoinSpaced(words: seq<string>)
    requires words != []
    ensures " " + Join(words) == Spaced(words)
  {
    if |words| > 1 {
      JoinSpaced(words[1..]);
      assert " " + (words[0] + (" " + Join(words[1..]))) == " " + words[0] + (" " + Join(words[1..]));
    } else {
      assert Spaced(words[1..]) == "";
      assert " " + words[0] + "" == " " + words[0];
    }
  }

  lemma LineSpaced(command: string, words: seq<string>)
    ensures Line(command, words) == command + Spaced(words)
  {
    if words != [] {
      JoinSpaced(words);
    }
  }

  // ----- The words of each message

  lemma SpellsName(word: string)
    ensures IsAlphanumeric(word) <==> IsName(word)
  {
    assert forall i :: 0 <= i < |word| ==>
             (Alphanumeric(word[i]) <==>
              'a' <= word[i] <= 'z' || 'A' <= word[i] <= 'Z' || IsDigit(word[i]));
  }

  lemma ReadsNumbers(words: seq<string>, values: seq<int>)
    ensures AreNumbers(words, values) <==> AllDoubles(words) && DoublesOf(words) == values
  {
    if AreNumbers(words, values) {
      assert forall i :: 0 <= i < |words| ==> IsNumber(words[i], values[i]);
    }
  }

  lemma HelloSpelled(words: seq<string>, m: Message)
    ensures ReadHello(words) == Some(m) <==> m.Hello? && Spells(words, m)
  {
    if |words| == 1 {
      SpellsName(words[0]);
      assert words == [words[0]];
    }
  }

  lemma CoeffSpelled(words: seq<string>, m: Message)
    ensures ReadCoeff(words) == Some(m) <==> m.Coeff? && Spells(words, m)
  {
    if m.Coeff? {
      ReadsNumbers(words, m.values);
      assert AllFit(m.values) <==> forall i :: 0 <= i < |m.values| ==> -1_000_000_000 <= m.values[i] <= 1_000_000_000;
    }
  }

  lemma StateSpelled(words: seq<string>, m: Message)
    ensures ReadState(words) == Some(m) <==> m.State? && Spells(words, m)
  {
    if m.State? {
      ReadsNumbers(words, m.values);
    }
  }

  lemma ScoringRead(words: seq<string>, m: Message)
    requires ReadScoring(words) == Some(m)
    ensures m.Scoring? && Spells(words, m)
  {
    forall i | 0 <= i < |m.rows|
      ensures words[2 * i] == m.rows[i].id && IsName(m.rows[i].id) && IsNumber(words[2 * i + 1], m.rows[i].score)
    {
      assert IsRowAt(words, i) && m.rows[i] == RowAt(words, i);
      SpellsName(words[2 * i]);
    }
  }

  lemma ScoringSpelled(words: seq<string>, m: Message)
    requires m.Scoring? && Spells(words, m)
    ensures ReadScoring(words) == Some(m)
  {
    forall i | 0 <= i < |words| / 2
      ensures IsRowAt(words, i) && m.rows[i] == RowAt(words, i)
    {
      assert words[2 * i] == m.rows[i].id;
      SpellsName(words[2 * i]);
    }
    assert AllRows(words) && RowsOf(words) == m.rows;
  }

  lemma PairSpelled(kind: MessageType, words: seq<string>, m: Message)
    requires IsPairType(kind)
    ensures ReadPair(kind, words) == Some(m) <==> m.Type() == kind && Spells(words, m)
  {
  }

  lemma ParamsSpelled(kind: MessageType, words: seq<string>, m: Message)
    ensures ParseParams(kind, words) == Some(m) <==> m.Type() == kind && Spells(words, m)
  {
    match kind
    case HELLO => HelloSpelled(words, m);
    case COEFF => CoeffSpelled(words, m);
    case STATE => StateSpelled(words, m);
    case SCORING =>
      if ReadScoring(words) == Some(m) {
        ScoringRead(words, m);
      } else if m.Scoring? && Spells(words, m) {
        ScoringSpelled(words, m);
      }
    case _ => PairSpelled(kind, words, m);
  }

  lemma NamesType(command: string, m: Message)
    ensures TypeOf(command) == Some(m.Type()) <==> command == Name(m)
  {
  }

  lemma NameIsCommand(m: Message)
    ensures IsCommand(Name(m))
  {
  }

  // ----- Main result

  /** The words of a line that is a message, none otherwise. */
  ghost predicate IsText(line: string, m: Message, words: seq<string>) {
    && (forall i :: 0 <= i < |words| ==> IsWord(words[i])) && Spells(words, m)
    && line == Name(m) + Spaced(words) + "\r\n"
  }

  /** A line is the message m exactly when it is the name of m, words that spell m, each after
      one space, and CRLF. */
  lemma LineLanguage(line: string, m: Message)
    ensures ParseLine(line) == Some(m) <==> exists words :: IsText(line, m, words)
  {
    if ParseLine(line) == Some(m) {
      var words := ParsedText(line, m);
      assert IsText(line, m, words);
    }
    if words :| IsText(line, m, words) {
      TextParsed(line, m, words);
    }
  }

  lemma CrlfCut(line: string)
    requires EndsWithCrlf(line)
    ensures line == line[..|line| - 2] + "\r\n"
  {
  }

  lemma AreWords(words: seq<string>)
    requires Words(words)
    ensures forall i :: 0 <= i < |words| ==> IsWord(words[i])
  {
    forall i | 0 <= i < |words|
      ensures IsWord(words[i])
    {
      SameWord(words[i]);
    }
  }

  lemma ParsedText(line: string, m: Message) returns (words: seq<string>)
    requires ParseLine(line) == Some(m)
    ensures IsText(line, m, words)
  {
    var text := line[..|line| - 2];
    var command := Cut(text).value.0;
    words := Cut(text).value.1;
    CutLanguage(text, command, words);
    ParamsSpelled(TypeOf(command).value, words, m);
    NamesType(command, m);
    LineSpaced(command, words);
    AreWords(words);
    CrlfCut(line);
  }

  lemma TextParsed(line: string, m: Message, words: seq<string>)
    requires IsText(line, m, words)
    ensures ParseLine(line) == Some(m)
  {
    var text := line[..|line| - 2];
    assert text == Name(m) + Spaced(words) && line[|line| - 2..] == "\r\n";
    LineSpaced(Name(m), words);
    NameIsCommand(m);
    forall i | 0 <= i < |words|
      ensures Word(words[i])
    {
      SameWord(words[i]);
    }
    CutLanguage(text, Name(m), words);
    NamesType(Name(m), m);
    ParamsSpelled(m.Type(), words, m);
  }

  // ----- What the factories print

  /** The words of a printed message, every double with seven digits. */
  predicate PrintsAs(m: Message, words: seq<string>) {
    match m
    case Hello(id) => words == [id]
    case Coeff(values) => |words| == |values| && forall i :: 0 <= i < |values| ==> words[i] == DoubleToString(values[i])
    case State(values) => |words| == |values| && forall i :: 0 <= i < |values| ==> words[i] == DoubleToString(values[i])
    case Scoring(rows) =>
      && |words| == 2 * |rows|
      && forall i :: 0 <= i < |rows| ==>
           words[2 * i] == rows[i].id && words[2 * i + 1] == DoubleToString(rows[i].score)
    case Put(point, value) => words == [IntegerToString(point), DoubleToString(value)]
    case BadPut(point, value) => words == [IntegerToString(point), DoubleToString(value)]
    case Penalty(point, value) => words == [IntegerToString(point), DoubleToString(value)]
  }

  lemma RowsPrinted(rows: seq<Row>)
    ensures PrintsAs(Scoring(rows), RowWords(rows))
  {
    var words := RowWords(rows);
    forall i | 0 <= i < |rows|
      ensures words[2 * i] == rows[i].id && words[2 * i + 1] == DoubleToString(rows[i].score)
    {
      assert (2 * i) % 2 == 0 && (2 * i) / 2 == i && (2 * i + 1) % 2 == 1 && (2 * i + 1) / 2 == i;
    }
  }

  lemma ParamsPrinted(m: Message)
    ensures PrintsAs(m, ParamsOf(m))
  {
    if m.Scoring? {
      RowsPrinted(m.rows);
    }
  }

  lemma TextIsLine(m: Message, words: seq<string>)
    requires words == ParamsOf(Normal(m))
    ensures Text(m) == Line(Name(m), words) + "\r\n"
  {
  }

  lemma TextSpaced(m: Message)
    ensures Text(m) == Name(m) + Spaced(ParamsOf(Normal(m))) + "\r\n"
  {
    TextIsLine(m, ParamsOf(Normal(m)));
    LineSpaced(Name(m), ParamsOf(Normal(m)));
  }

  /** The text of a message: its name, its contents, SCORING in order, each after one space, and
      CRLF. */
  lemma TextLayout(m: Message) returns (words: seq<string>)
    ensures Text(m) == Name(m) + Spaced(words) + "\r\n"
    ensures PrintsAs(Normal(m), words) && (m.Scoring? ==> InOrder(Normal(m).rows)) && (!m.Scoring? ==> Normal(m) == m)
  {
    words := ParamsOf(Normal(m));
    TextSpaced(m);
    ParamsPrinted(Normal(m));
    if m.Scoring? {
      SortSorts(m.rows);
    }
  }
}
