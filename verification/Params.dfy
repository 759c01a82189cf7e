/** Cutting a line into its command and parameters
    (the-great-approximator/msg_parser.cpp:100-140). */
module Params {
  import opened Wrappers

  predicate ParamChar(c: char) {
    'a' <= c <= 'z' || 'A' <= c <= 'Z' || '0' <= c <= '9' || c == '-' || c == '.'
  }

  predicate Word(w: string) {
    w != "" && forall i :: 0 <= i < |w| ==> ParamChar(w[i])
  }

  predicate Words(words: seq<string>) {
    forall i :: 0 <= i < |words| ==> Word(words[i])
  }

  /** The words with one space between neighbours. */
  function Join(words: seq<string>): string {
    if words == [] then ""
    else if |words| == 1 then words[0]
    else words[0] + (" " + Join(words[1..]))
  }

  // ----- The regular expression ([a-zA-Z0-9\-\.]+ )*[a-zA-Z0-9\-\.]+

  function WordLength(s: string): (n: nat)
    ensures n <= |s|
    ensures n > 0 ==> Word(s[..n])
    ensures n < |s| ==> !ParamChar(s[n])
  {
    if s != "" && ParamChar(s[0]) then 1 + WordLength(s[1..]) else 0
  }

  predicate RegexMatch(s: string) {
    var n := WordLength(s);
    n > 0 && (n == |s| || (s[n] == ' ' && RegexMatch(s[n + 1..])))
  }

  function RegexWords(s: string): seq<string>
    requires RegexMatch(s)
  {
    var n := WordLength(s);
    if n == |s| then [s] else [s[..n]] + RegexWords(s[n + 1..])
  }

  // ----- Reading words from a stream

  predicate IsSpace(c: char) {
    c == ' ' || c == '\t' || c == '\n' || c == '\U{000B}' || c == '\U{000C}' || c == '\r'
  }

  function SkipSpaces(s: string): (t: string)
    ensures |t| <= |s|
  {
    if s != "" && IsSpace(s[0]) then SkipSpaces(s[1..]) else s
  }

  function TokenLength(s: string): (n: nat)
    ensures n <= |s|
    ensures s != "" && !IsSpace(s[0]) ==> n > 0
  {
    if s != "" && !IsSpace(s[0]) then 1 + TokenLength(s[1..]) else 0
  }

  lemma {:induction false} SkipsToToken(s: string)
    ensures SkipSpaces(s) != "" ==> !IsSpace(SkipSpaces(s)[0])
  {
    if s != "" && IsSpace(s[0]) {
      SkipsToToken(s[1..]);
    }
  }

  /** One extraction `iss >> param`: the word read and what is left of the stream. */
  function Extract(s: string): (r: Option<(string, string)>)
    ensures r.Some? ==> |r.value.1| < |s|
  {
    var t := SkipSpaces(s);
    if t == "" then None
    else
      SkipsToToken(s);
      Some((t[..TokenLength(t)], t[TokenLength(t)..]))
  }

  function Tokens(s: string): seq<string>
    decreases |s|
  {
    var next := Extract(s);
    if next.None? then [] else [next.value.0] + Tokens(next.value.1)
  }

  function Split(params: string): Option<seq<string>> {
    if params == "" then Some([])
    else if !RegexMatch(params) then None
    else Some(Tokens(params))
  }

  method SplitParams(params: string) returns (split: Option<seq<string>>)
    ensures split == Split(params)
  {
    var out: seq<string> := [];
    if params == "" {
      return Some(out);
    }
    if !RegexMatch(params) {
      return None;
    }
    var iss := params;
    var next := Extract(iss);
    while next.Some?
      invariant next == Extract(iss)
      invariant params != "" && RegexMatch(params)
      invariant out + Tokens(iss) == Tokens(params)
      decreases |iss|
    {
      out := out + [next.value.0];
      iss := next.value.1;
      next := Extract(iss);
    }
    assert Tokens(iss) == [] && out + [] == out;
    return Some(out);
  }

  // ----- The language of splitParams

  lemma {:induction false} WordLengthOf(w: string, rest: string)
    requires forall i :: 0 <= i < |w| ==> ParamChar(w[i])
    requires rest == "" || rest[0] == ' '
    ensures WordLength(w + rest) == |w| == TokenLength(w + rest)
  {
    if w == "" {
      assert w + rest == rest;
    } else {
      assert (w + rest)[1..] == w[1..] + rest;
      WordLengthOf(w[1..], rest);
    }
  }

  lemma JoinParts(words: seq<string>)
    requires words != [] && Words(words)
    ensures var rest := if |words| == 1 then "" else " " + Join(words[1..]);
            Join(words) == words[0] + rest && Join(words) != "" && ParamChar(Join(words)[0])
  {
  }

  lemma LastWord(w: string)
    requires Word(w)
    ensures RegexMatch(w) && Tokens(w) == [w]
  {
    WordLengthOf(w, "");
    assert w + "" == w;
    assert w[|w|..] == "" && Tokens("") == [];
  }

  /** The parts of a text that begins with a word and a space. */
  lemma WordAndRest(w: string, rest: string)
    requires Word(w)
    ensures var s := w + (" " + rest);
            s[..|w|] == w && s[|w|..] == " " + rest && s[|w| + 1..] == rest && WordLength(s) == |w| == TokenLength(s)
  {
    WordLengthOf(w, " " + rest);
  }

  lemma SpaceSkipped(rest: string)
    requires rest != "" && ParamChar(rest[0])
    ensures SkipSpaces(" " + rest) == SkipSpaces(rest)
  {
    assert (" " + rest)[1..] == rest;
  }

  lemma SpacedTokens(rest: string)
    requires rest != "" && ParamChar(rest[0])
    ensures Tokens(" " + rest) == Tokens(rest)
  {
    SpaceSkipped(rest);
    assert Extract(" " + rest) == Extract(rest);
  }

  lemma FirstExtract(w: string, rest: string)
    requires Word(w)
    ensures Extract(w + (" " + rest)) == Some((w, " " + rest))
  {
    WordAndRest(w, rest);
    var s := w + (" " + rest);
    assert s[0] == w[0] && SkipSpaces(s) == s;
  }

  lemma NextWord(w: string, rest: string)
    requires Word(w) && rest != "" && ParamChar(rest[0])
    ensures RegexMatch(w + (" " + rest)) == RegexMatch(rest)
    ensures Tokens(w + (" " + rest)) == [w] + Tokens(rest)
  {
    WordAndRest(w, rest);
    FirstExtract(w, rest);
    SpacedTokens(rest);
  }

  lemma {:induction false} JoinReadsBack(words: seq<string>)
    requires words != [] && Words(words)
    ensures RegexMatch(Join(words)) && Tokens(Join(words)) == words
  {
    if |words| == 1 {
      LastWord(words[0]);
    } else {
      JoinParts(words[1..]);
      JoinReadsBack(words[1..]);
      NextWord(words[0], Join(words[1..]));
    }
  }

  lemma JoinCons(w: string, words: seq<string>)
    requires Word(w) && words != [] && Words(words)
    ensures Words([w] + words) && Join([w] + words) == w + (" " + Join(words))
  {
    assert ([w] + words)[1..] == words;
  }

  lemma {:induction false} RegexWordsJoin(s: string)
    requires RegexMatch(s)
    ensures RegexWords(s) != [] && Words(RegexWords(s)) && Join(RegexWords(s)) == s
  {
    var n := WordLength(s);
    if n == |s| {
      assert s[..n] == s;
    } else {
      var w, rest := s[..n], s[n + 1..];
      RegexWordsJoin(rest);
      JoinCons(w, RegexWords(rest));
      assert w + (" " + rest) == s;
    }
  }

  /** splitParams accepts a non-empty text exactly when it is words over the alphabet with one
      space between neighbours, and then gives these words. */
  lemma SplitLanguage(s: string, words: seq<string>)
    requires s != ""
    ensures Split(s) == Some(words) <==> words != [] && Words(words) && Join(words) == s
  {
    if RegexMatch(s) {
      RegexWordsJoin(s);
      JoinReadsBack(RegexWords(s));
    }
    if words != [] && Words(words) && Join(words) == s {
      JoinReadsBack(words);
    }
  }

  // ----- The command

  /** std::string::find of a character; the length of the text when there is none. */
  function Find(s: string, c: char): (p: nat)
    ensures p <= |s| && (p < |s| ==> s[p] == c) && c !in s[..p]
  {
    if s == "" || s[0] == c then 0 else 1 + Find(s[1..], c)
  }

  function ExtractCommand(line: string): Option<(string, string)> {
    if line == "" then None
    else
      var p := Find(line, ' ');
      if p == |line| then Some((line, ""))
      else if p == 0 then None
      else if p + 1 == |line| then None
      else Some((line[..p], line[p + 1..]))
  }

  predicate IsCommand(command: string) {
    command != "" && ' ' !in command
  }

  /** A line is cut exactly when it is a command or a command, a space and parameters. */
  lemma CommandLanguage(line: string, command: string, params: string)
    ensures ExtractCommand(line) == Some((command, params)) <==>
            IsCommand(command) && line == command + if params == "" then "" else " " + params
  {
    var p := Find(line, ' ');
    if p < |line| {
      assert line == line[..p] + (" " + line[p + 1..]);
    } else {
      assert line[..p] == line;
    }
    if IsCommand(command) && line == command + if params == "" then "" else " " + params {
      if params == "" {
        assert line == command;
      } else {
        assert line[|command|] == ' ' && line[..|command|] == command && line[|command| + 1..] == params;
        assert forall i :: 0 <= i < |command| ==> line[i] == command[i];
        assert p == |command|;
      }
    }
  }

  // ----- Whole lines

  function Line(command: string, words: seq<string>): string {
    command + if words == [] then "" else " " + Join(words)
  }

  function Cut(line: string): Option<(string, seq<string>)> {
    var parts := ExtractCommand(line);
    if parts.None? || Split(parts.value.1).None? then None
    else Some((parts.value.0, Split(parts.value.1).value))
  }

  /** Printing and cutting a line undo each other. */
  lemma CutLanguage(line: string, command: string, words: seq<string>)
    ensures Cut(line) == Some((command, words)) <==> IsCommand(command) && Words(words) && line == Line(command, words)
  {
    if Cut(line) == Some((command, words)) {
      var params := ExtractCommand(line).value.1;
      CommandLanguage(line, command, params);
      if params != "" {
        SplitLanguage(params, words);
      }
    }
    if IsCommand(command) && Words(words) && line == Line(command, words) {
      if words == [] {
        CommandLanguage(line, command, "");
      } else {
        JoinParts(words);
        CommandLanguage(line, command, Join(words));
        SplitLanguage(Join(words), words);
      }
    }
  }
}
