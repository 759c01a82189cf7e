/** Cutting a byte stream into lines that end with CRLF
    (the-great-approximator/client_logic.cpp:181-205, approx-server.cpp:107-131). */
module Framing {
  const CRLF := "\r\n"

  predicate CrlfAt(s: string, i: nat) {
    i + 1 < |s| && s[i] == '\r' && s[i + 1] == '\n'
  }

  predicate NoCrlf(s: string) {
    forall i: nat :: i < |s| ==> !CrlfAt(s, i)
  }

  /** std::string::find of CRLF; the length of the text when there is none. */
  function FindCrlf(s: string): (p: nat)
    ensures p <= |s| && (p < |s| ==> CrlfAt(s, p))
    ensures forall i: nat :: i < p ==> !CrlfAt(s, i)
  {
    if |s| < 2 then |s|
    else if CrlfAt(s, 0) then 0
    else
      assert forall i: nat :: 0 < i < |s| ==> CrlfAt(s, i) == CrlfAt(s[1..], i - 1);
      1 + FindCrlf(s[1..])
  }

  /** A text whose only CRLF is at its end. */
  predicate IsLine(line: string) {
    |line| >= 2 && FindCrlf(line) == |line| - 2
  }

  predicate Lines(lines: seq<string>) {
    forall i :: 0 <= i < |lines| ==> IsLine(lines[i])
  }

  function Concat(lines: seq<string>): string {
    if lines == [] then "" else lines[0] + Concat(lines[1..])
  }

  /** The lines in a buffer and what remains. */
  function Frame(buffer: string): (seq<string>, string)
    decreases |buffer|
  {
    var p := FindCrlf(buffer);
    if p == |buffer| then ([], buffer)
    else
      var r := Frame(buffer[p + 2..]);
      ([buffer[..p + 2]] + r.0, r.1)
  }

  lemma FindUnique(s: string, p: nat)
    requires p <= |s| && (p < |s| ==> CrlfAt(s, p)) && forall i: nat :: i < p ==> !CrlfAt(s, i)
    ensures FindCrlf(s) == p
  {
  }

  lemma FirstLine(s: string)
    requires FindCrlf(s) < |s|
    ensures IsLine(s[..FindCrlf(s) + 2])
  {
    var p := FindCrlf(s);
    var line := s[..p + 2];
    assert forall i: nat :: i <= p ==> CrlfAt(line, i) == CrlfAt(s, i);
    FindUnique(line, p);
  }

  lemma LineFound(line: string, rest: string)
    requires IsLine(line)
    ensures FindCrlf(line + rest) == |line| - 2
    ensures (line + rest)[..|line|] == line && (line + rest)[|line|..] == rest
  {
    var s := line + rest;
    assert forall i: nat :: i <= |line| - 2 ==> CrlfAt(s, i) == CrlfAt(line, i);
    FindUnique(s, |line| - 2);
  }

  lemma Reassociate<T>(a: seq<T>, b: seq<T>, c: seq<T>)
    ensures (a + b) + c == a + (b + c)
  {
  }

  lemma ConcatCons(line: string, lines: seq<string>)
    ensures Concat([line] + lines) == line + Concat(lines)
  {
    assert ([line] + lines)[1..] == lines;
  }

  lemma {:induction false} ConcatAppend(a: seq<string>, b: seq<string>)
    ensures Concat(a + b) == Concat(a) + Concat(b)
  {
    if a == [] {
      assert a + b == b;
      assert "" + Concat(b) == Concat(b);
    } else {
      assert (a + b)[1..] == a[1..] + b;
      ConcatAppend(a[1..], b);
      Reassociate(a[0], Concat(a[1..]), Concat(b));
    }
  }

  /** The server cuts the CRLF off and createMessageWithCRLF puts it back. */
  lemma CrlfPutBack(buffer: string, p: nat)
    requires CrlfAt(buffer, p)
    ensures buffer[..p] + CRLF == buffer[..p + 2] && buffer[..p + 2] + buffer[p + 2..] == buffer
  {
    assert buffer[p..p + 2] == CRLF;
  }

  lemma OneMoreLine(line: string, lines: seq<string>, last: string)
    ensures Concat([line] + lines) + last == line + (Concat(lines) + last)
  {
    ConcatCons(line, lines);
    Reassociate(line, Concat(lines), last);
  }

  lemma {:induction false} FrameConcat(buffer: string)
    ensures Concat(Frame(buffer).0) + Frame(buffer).1 == buffer
    decreases |buffer|
  {
    var p := FindCrlf(buffer);
    if p == |buffer| {
      assert "" + buffer == buffer;
    } else {
      var rest := buffer[p + 2..];
      FrameConcat(rest);
      OneMoreLine(buffer[..p + 2], Frame(rest).0, Frame(rest).1);
      CrlfPutBack(buffer, p);
    }
  }

  lemma {:induction false} FrameCuts(buffer: string)
    ensures Lines(Frame(buffer).0) && NoCrlf(Frame(buffer).1)
    decreases |buffer|
  {
    var p := FindCrlf(buffer);
    if p < |buffer| {
      FirstLine(buffer);
      FrameCuts(buffer[p + 2..]);
    }
  }

  /** Framing keeps every byte, and what it cuts are lines. */
  lemma FrameKeeps(buffer: string)
    ensures Lines(Frame(buffer).0) && NoCrlf(Frame(buffer).1)
    ensures Concat(Frame(buffer).0) + Frame(buffer).1 == buffer
  {
    FrameConcat(buffer);
    FrameCuts(buffer);
  }

  lemma FrameLine(line: string, rest: string)
    requires IsLine(line)
    ensures Frame(line + rest) == ([line] + Frame(rest).0, Frame(rest).1)
  {
    LineFound(line, rest);
  }

  /** Lines put before a text are cut first and do not disturb the rest. */
  lemma {:induction false} FrameLines(lines: seq<string>, rest: string)
    requires Lines(lines)
    ensures Frame(Concat(lines) + rest) == (lines + Frame(rest).0, Frame(rest).1)
  {
    if lines == [] {
      assert Concat(lines) + rest == rest;
      assert lines + Frame(rest).0 == Frame(rest).0;
    } else {
      FrameLines(lines[1..], rest);
      Reassociate(lines[0], Concat(lines[1..]), rest);
      FrameLine(lines[0], Concat(lines[1..]) + rest);
      Reassociate([lines[0]], lines[1..], Frame(rest).0);
      assert [lines[0]] + lines[1..] == lines;
    }
  }

  /** A buffer has exactly one reading as lines followed by a text without CRLF. */
  lemma FrameUnique(buffer: string, lines: seq<string>, rest: string)
    ensures Frame(buffer) == (lines, rest) <==> Lines(lines) && NoCrlf(rest) && Concat(lines) + rest == buffer
  {
    FrameKeeps(buffer);
    if Lines(lines) && NoCrlf(rest) && Concat(lines) + rest == buffer {
      FrameLines(lines, rest);
      FindUnique(rest, |rest|);
      assert lines + [] == lines;
    }
  }

  /** How the stream is cut into chunks does not matter, a CRLF split between two included. */
  lemma FrameInChunks(first: string, second: string)
    ensures var f := Frame(first); var g := Frame(f.1 + second);
            Frame(first + second) == (f.0 + g.0, g.1)
  {
    var f := Frame(first);
    FrameKeeps(first);
    FrameLines(f.0, f.1 + second);
    Reassociate(Concat(f.0), f.1, second);
  }

  /** A stream of lines is read back line by line. */
  lemma LinesReadBack(lines: seq<string>)
    requires Lines(lines)
    ensures Frame(Concat(lines)) == (lines, "")
  {
    FrameUnique(Concat(lines), lines, "");
    assert Concat(lines) + "" == Concat(lines);
  }

  lemma ConcatSnoc(lines: seq<string>, line: string, rest: string)
    ensures Concat(lines + [line]) + rest == Concat(lines) + (line + rest)
  {
    ConcatAppend(lines, [line]);
    ConcatCons(line, []);
    assert line + "" == line;
    Reassociate(Concat(lines), line, rest);
  }

  /** What holds between two messages of the loop. */
  ghost predicate Handling(handled: seq<string>, buffer: string, all: string) {
    handled + Frame(buffer).0 == Frame(all).0 && Concat(handled) + buffer == all
  }

  lemma HandledLine(handled: seq<string>, line: string, rest: string, all: string)
    requires IsLine(line) && Handling(handled, line + rest, all)
    ensures Handling(handled + [line], rest, all)
  {
    FrameLine(line, rest);
    Reassociate(handled, [line], Frame(rest).0);
    ConcatSnoc(handled, line, rest);
  }

  lemma HandledOne(handled: seq<string>, buffer: string, all: string)
    requires FindCrlf(buffer) < |buffer| && Handling(handled, buffer, all)
    ensures var p := FindCrlf(buffer); Handling(handled + [buffer[..p] + CRLF], buffer[p + 2..], all)
  {
    var p := FindCrlf(buffer);
    FirstLine(buffer);
    CrlfPutBack(buffer, p);
    HandledLine(handled, buffer[..p] + CRLF, buffer[p + 2..], all);
  }

  lemma HandledAll(handled: seq<string>, buffer: string, all: string)
    requires Handling(handled, buffer, all)
    ensures |handled| <= |Frame(all).0| && handled == Frame(all).0[..|handled|]
    ensures FindCrlf(buffer) == |buffer| ==> handled == Frame(all).0
  {
  }

  // ----- The loop over a player's buffer in handle_read_from_client

  class ClientBuffer {
    var buffer: string

    constructor ()
      ensures buffer == ""
    {
      buffer := "";
    }

    /** One successful read.  The loop breaks after a message that shows the client to be
        unknown or ends the game: `last` is how many messages it handles at most. */
    method HandleRead(received: string, last: nat) returns (handled: seq<string>)
      requires last >= 1
      modifies this
      ensures var lines := Frame(old(buffer) + received).0;
              handled == if last < |lines| then lines[..last] else lines
      ensures Concat(handled) + buffer == old(buffer) + received
    {
      buffer := buffer + received;
      ghost var all := buffer;
      handled := [];
      assert Handling([], all, all);
      var crlfPos := FindCrlf(buffer);
      while crlfPos != |buffer|
        invariant crlfPos == FindCrlf(buffer)
        invariant |handled| < last && Handling(handled, buffer, all)
        decreases |buffer|
      {
        HandledOne(handled, buffer, all);
        var msg := buffer[..crlfPos];
        buffer := buffer[crlfPos + 2..];
        crlfPos := FindCrlf(buffer);
        handled := handled + [msg + CRLF];
        if |handled| == last {
          HandledAll(handled, buffer, all);
          return;
        }
      }
      HandledAll(handled, buffer, all);
    }
  }
}
