/** One direction of a connection: the sender's queue of messages with partial sends, the bytes
    on their way and the receiver's buffer with arbitrary chunks
    (the-great-approximator/approx-server.cpp:137-169, client_logic.cpp:172-219,
    server_logic.cpp:59-79). */
module Channel {
  import opened Wrappers
  import opened Framing
  import opened Messages
  import opened Params

  // ----- Sending

  /** handle_write_to_client with `accepted` bytes taken by send: what is sent and what stays. */
  function Write(messages: seq<string>, accepted: nat): (string, seq<string>)
    requires messages != [] && accepted <= |messages[0]|
  {
    var rest := messages[0][accepted..];
    (messages[0][..accepted], if rest == "" then messages[1..] else [rest] + messages[1..])
  }

  /** The queue of one player. */
  class Outbox {
    var messages: seq<string>

    constructor ()
      ensures messages == []
    {
      messages := [];
    }

    predicate HasPending()
      reads this
    {
      messages != []
    }

    method AppendBack(msg: string)
      modifies this
      ensures messages == old(messages) + [msg]
    {
      messages := messages + [msg];
    }

    method AppendFront(msg: string)
      modifies this
      ensures messages == [msg] + old(messages)
    {
      messages := [msg] + messages;
    }

    method TakeNext() returns (msg: string)
      requires HasPending()
      modifies this
      ensures msg == old(messages[0]) && messages == old(messages[1..])
    {
      msg := messages[0];
      messages := messages[1..];
    }

    /** `written` is what send returns for a message of the given length; an error or a closed
        connection (written <= 0) drops the client. */
    method HandleWrite(written: int) returns (sent: string, connected: bool)
      requires HasPending() && messages[0] != "" ==> written <= |messages[0]|
      modifies this
      ensures connected <==> !old(HasPending()) || old(messages[0]) == "" || written > 0
      ensures !old(HasPending()) ==> sent == "" && messages == []
      ensures old(HasPending()) && old(messages[0]) == "" ==> sent == "" && messages == old(messages[1..])
      ensures old(HasPending()) && old(messages[0]) != "" && written > 0 ==>
              (sent, messages) == Write(old(messages), written)
      ensures connected ==> sent + Concat(messages) == old(Concat(messages))
      ensures !connected ==> sent == ""
    {
      sent := "";
      if !HasPending() {
        return sent, true;
      }
      ghost var before := messages;
      var msg := TakeNext();
      if msg == "" {
        return sent, true;
      }
      if written <= 0 {
        return sent, false;
      }
      WriteKeepsBytes(before, written);
      var rest := msg[written..];
      if rest != "" {
        AppendFront(rest);
      }
      return msg[..written], true;
    }
  }

  /** A partial send loses, repeats and reorders nothing, and sends as much as was accepted. */
  lemma WriteKeepsBytes(messages: seq<string>, accepted: nat)
    requires messages != [] && accepted <= |messages[0]|
    ensures var (sent, left) := Write(messages, accepted); sent + Concat(left) == Concat(messages)
    ensures var (sent, left) := Write(messages, accepted); |sent| == accepted
  {
    var (sent, left) := Write(messages, accepted);
    var rest := messages[0][accepted..];
    assert sent + rest == messages[0];
    if rest == "" {
      assert sent == messages[0];
    } else {
      ConcatCons(rest, messages[1..]);
      Reassociate(sent, rest, Concat(messages[1..]));
    }
  }

  // ----- Receiving

  /** What the client has made of its lines: a first line that is not a message is fatal, any
      later one is reported and skipped. */
  datatype Inbox = Inbox(incoming: seq<Message>, isFirstMessage: bool, failed: bool)

  const EMPTY := Inbox([], true, false)

  function TakeLine(box: Inbox, line: string): Inbox {
    if box.failed then box
    else
      var msg := ParseLine(line);
      if msg.Some? then Inbox(box.incoming + [msg.value], false, false)
      else if box.isFirstMessage then box.(failed := true)
      else box
  }

  function TakeLines(box: Inbox, lines: seq<string>): Inbox
    decreases |lines|
  {
    if lines == [] then box else TakeLines(TakeLine(box, lines[0]), lines[1..])
  }

  lemma {:induction false} FailedStays(box: Inbox, lines: seq<string>)
    requires box.failed
    ensures TakeLines(box, lines) == box
    decreases |lines|
  {
    if lines != [] {
      FailedStays(box, lines[1..]);
    }
  }

  /** network_receiver of the client. */
  class Receiver {
    var recvBuffer: string
    var box: Inbox

    constructor ()
      ensures recvBuffer == "" && box == EMPTY
    {
      recvBuffer := "";
      box := EMPTY;
    }

    method Receive(chunk: string)
      requires !box.failed
      modifies this
      ensures box == TakeLines(old(box), Frame(old(recvBuffer) + chunk).0)
      ensures !box.failed ==> recvBuffer == Frame(old(recvBuffer) + chunk).1
    {
      recvBuffer := recvBuffer + chunk;
      ghost var lines, last := Frame(recvBuffer).0, Frame(recvBuffer).1;
      var crlfPos := FindCrlf(recvBuffer);
      while crlfPos != |recvBuffer| && !box.failed
        invariant crlfPos == FindCrlf(recvBuffer)
        invariant TakeLines(box, Frame(recvBuffer).0) == TakeLines(old(box), lines)
        invariant !box.failed ==> Frame(recvBuffer).1 == last
        decreases |recvBuffer|
      {
        var line := recvBuffer[..crlfPos + 2];
        ghost var rest := Frame(recvBuffer[crlfPos + 2..]).0;
        assert ([line] + rest)[1..] == rest;
        recvBuffer := recvBuffer[crlfPos + 2..];
        box := TakeLine(box, line);
        crlfPos := FindCrlf(recvBuffer);
      }
      if box.failed {
        FailedStays(box, Frame(recvBuffer).0);
      }
    }
  }

  /** Lines may be taken in any number of batches. */
  lemma {:induction false} TakeLinesAppend(box: Inbox, first: seq<string>, second: seq<string>)
    ensures TakeLines(box, first + second) == TakeLines(TakeLines(box, first), second)
    decreases |first|
  {
    if first == [] {
      assert first + second == second;
    } else {
      assert (first + second)[1..] == first[1..] + second;
      TakeLinesAppend(TakeLine(box, first[0]), first[1..], second);
    }
  }

  /** What the lines that are messages say, in order. */
  function Understood(lines: seq<string>): seq<Message> {
    if lines == [] then []
    else
      var last := ParseLine(lines[|lines| - 1]);
      Understood(lines[..|lines| - 1]) + if last.Some? then [last.value] else []
  }

  /** Exactly what becomes of any lines: the client gives up when and only when the first is not
      a message, and otherwise gets every message among them and skips the rest. */
  lemma {:induction false} LinesUnderstood(lines: seq<string>)
    ensures var box := TakeLines(EMPTY, lines);
            && (box.failed <==> lines != [] && ParseLine(lines[0]).None?)
            && (box.isFirstMessage <==> lines == [] || box.failed)
            && (!box.failed ==> box.incoming == Understood(lines))
            && (box.failed ==> box.incoming == [])
    decreases |lines|
  {
    if lines != [] {
      var k := |lines| - 1;
      LinesUnderstood(lines[..k]);
      TakeLinesAppend(EMPTY, lines[..k], [lines[k]]);
      assert lines == lines[..k] + [lines[k]];
      var box := TakeLines(EMPTY, lines[..k]);
      assert TakeLines(box, [lines[k]]) == TakeLine(box, lines[k]);
      assert k > 0 ==> lines[..k][0] == lines[0];
    }
  }

  // ----- Runs of a connection

  /** `queued` and `lines` record everything ever queued and everything cut by the receiver,
      whose inbox is `box`. */
  datatype Link = Link(queued: seq<string>, messages: seq<string>, wire: string, recvBuffer: string,
                       lines: seq<string>, box: Inbox)
  {
    function Queue(line: string): Link {
      this.(queued := queued + [line], messages := messages + [line])
    }
  }

  datatype Step = Queue(line: string) | Send(accepted: nat) | Receive(size: nat)

  const IDLE := Link([], [], "", "", [], EMPTY)

  ghost predicate Enabled(x: Link, step: Step) {
    match step
    case Queue(line) => IsLine(line)
    case Send(accepted) => x.messages != [] && 1 <= accepted <= |x.messages[0]|
    case Receive(size) => 1 <= size <= |x.wire| && !x.box.failed
  }

  ghost function Apply(x: Link, step: Step): Link
    requires Enabled(x, step)
  {
    match step
    case Queue(line) => x.Queue(line)
    case Send(accepted) =>
      var (sent, left) := Write(x.messages, accepted);
      x.(messages := left, wire := x.wire + sent)
    case Receive(size) =>
      var (lines, rest) := Frame(x.recvBuffer + x.wire[..size]);
      x.(wire := x.wire[size..], recvBuffer := rest, lines := x.lines + lines, box := TakeLines(x.box, lines))
  }

  ghost predicate IsRun(xs: seq<Link>, steps: seq<Step>) {
    && |xs| == |steps| + 1 && xs[0] == IDLE
    && forall k :: 0 <= k < |steps| ==> Enabled(xs[k], steps[k]) && xs[k + 1] == Apply(xs[k], steps[k])
  }

  /** Every queued byte is in exactly one place, and the inbox is that of the lines cut. */
  ghost predicate Inv(x: Link) {
    && Lines(x.queued) && Lines(x.lines) && NoCrlf(x.recvBuffer) && x.box == TakeLines(EMPTY, x.lines)
    && Concat(x.lines) + (x.recvBuffer + (x.wire + Concat(x.messages))) == Concat(x.queued)
  }

  lemma QueueKeeps(x: Link, line: string)
    requires Inv(x) && IsLine(line)
    ensures Inv(x.Queue(line))
  {
    ConcatSnoc(x.queued, line, "");
    ConcatSnoc(x.messages, line, "");
    assert forall s: string :: s + "" == s;
    Reassociate(x.wire, Concat(x.messages), line);
    Reassociate(x.recvBuffer, x.wire + Concat(x.messages), line);
    Reassociate(Concat(x.lines), x.recvBuffer + (x.wire + Concat(x.messages)), line);
  }

  lemma SendKeeps(x: Link, accepted: nat)
    requires Inv(x) && Enabled(x, Send(accepted))
    ensures Inv(Apply(x, Send(accepted)))
  {
    WriteKeepsBytes(x.messages, accepted);
    var (sent, left) := Write(x.messages, accepted);
    Reassociate(x.wire, sent, Concat(left));
  }

  /** Cutting the bytes received moves them from the wire to the lines and the buffer. */
  lemma BytesMoved(lines: seq<string>, buffer: string, got: string, left: string, after: string)
    ensures var f := Frame(buffer + got);
            Concat(lines + f.0) + (f.1 + (left + after)) == Concat(lines) + (buffer + ((got + left) + after))
  {
    var f := Frame(buffer + got);
    FrameConcat(buffer + got);
    ConcatAppend(lines, f.0);
    Reassociate(Concat(lines), Concat(f.0), f.1 + (left + after));
    Reassociate(Concat(f.0), f.1, left + after);
    Reassociate(buffer, got, left + after);
    Reassociate(got, left, after);
  }

  lemma ReceiveKeeps(x: Link, size: nat)
    requires Inv(x) && Enabled(x, Receive(size))
    ensures Inv(Apply(x, Receive(size)))
  {
    var got, left := x.wire[..size], x.wire[size..];
    assert got + left == x.wire;
    BytesMoved(x.lines, x.recvBuffer, got, left, Concat(x.messages));
    FrameCuts(x.recvBuffer + got);
    TakeLinesAppend(EMPTY, x.lines, Frame(x.recvBuffer + got).0);
  }

  lemma {:induction false} RunKeeps(xs: seq<Link>, steps: seq<Step>, k: nat)
    requires IsRun(xs, steps) && k <= |steps|
    ensures Inv(xs[k])
  {
    if k > 0 {
      RunKeeps(xs, steps, k - 1);
      match steps[k - 1]
      case Queue(line) => QueueKeeps(xs[k - 1], line);
      case Send(accepted) => SendKeeps(xs[k - 1], accepted);
      case Receive(size) => ReceiveKeeps(xs[k - 1], size);
    }
  }

  lemma LinesCut(x: Link)
    requires Inv(x)
    ensures x.lines <= x.queued
    ensures x.messages == [] && x.wire == "" ==> x.lines == x.queued && x.recvBuffer == ""
  {
    var left := x.recvBuffer + (x.wire + Concat(x.messages));
    LinesReadBack(x.queued);
    FrameLines(x.lines, left);
    if x.messages == [] && x.wire == "" {
      assert left == x.recvBuffer;
      FrameUnique(left, [], left);
      assert Concat([]) + left == left;
    }
  }

  /** However the sends were cut and the chunks arrived, the receiver has cut a prefix of the
      lines queued, in order, and all of them once nothing is left to send or receive. */
  lemma LinesArrive(xs: seq<Link>, steps: seq<Step>, k: nat)
    requires IsRun(xs, steps) && k <= |steps|
    ensures xs[k].lines <= xs[k].queued
    ensures xs[k].messages == [] && xs[k].wire == "" ==> xs[k].lines == xs[k].queued && xs[k].recvBuffer == ""
  {
    RunKeeps(xs, steps, k);
    LinesCut(xs[k]);
  }

  // ----- Messages over the connection

  lemma {:induction false} JoinHasNoReturn(words: seq<string>)
    requires Words(words)
    ensures '\r' !in Join(words)
  {
    if words != [] {
      assert Word(words[0]);
      JoinHasNoReturn(words[1..]);
    }
  }

  lemma PrintedIsLine(command: string, words: seq<string>)
    requires '\r' !in command && Words(words)
    ensures IsLine(Line(command, words) + CRLF)
  {
    var line := Line(command, words);
    JoinHasNoReturn(words);
    assert '\r' !in line;
    FindUnique(line + CRLF, |line|);
  }

  lemma CommandHasNoReturn(command: string)
    requires TypeOf(command).Some?
    ensures '\r' !in command
  {
  }

  lemma CutIsLine(text: string, command: string, words: seq<string>)
    requires Cut(text) == Some((command, words)) && '\r' !in command
    ensures IsLine(text + CRLF)
  {
    CutLanguage(text, command, words);
    PrintedIsLine(command, words);
  }

  /** Every text the parser accepts is one line: it may be printed by a factory or come from
      a file. */
  lemma AcceptedIsLine(line: string)
    requires ParseLine(line).Some?
    ensures IsLine(line)
  {
    var text := line[..|line| - 2];
    var cut := Cut(text).value;
    CommandHasNoReturn(cut.0);
    CutIsLine(text, cut.0, cut.1);
    assert line == text + CRLF;
  }

  /** The text of a valid message is one line. */
  lemma TextIsLine(m: Message)
    requires Valid(m)
    ensures IsLine(Text(m))
  {
    RoundTrip(m);
    AcceptedIsLine(Text(m));
  }

  lemma LineIsTaken(box: Inbox, line: string, m: Message)
    requires ParseLine(line) == Some(m) && !box.failed
    ensures TakeLine(box, line) == Inbox(box.incoming + [m], false, false)
  {
  }

  lemma {:induction false} LinesAreTaken(box: Inbox, lines: seq<string>, ms: seq<Message>)
    requires |lines| == |ms| && !box.failed
    requires forall i :: 0 <= i < |lines| ==> ParseLine(lines[i]) == Some(ms[i])
    ensures TakeLines(box, lines) == Inbox(box.incoming + ms, box.isFirstMessage && ms == [], false)
    decreases |lines|
  {
    if ms == [] {
      assert box.incoming + ms == box.incoming;
    } else {
      LineIsTaken(box, lines[0], ms[0]);
      LinesAreTaken(Inbox(box.incoming + [ms[0]], false, false), lines[1..], ms[1..]);
      Reassociate(box.incoming, [ms[0]], ms[1..]);
      assert [ms[0]] + ms[1..] == ms;
    }
  }

  ghost predicate QueueIs(x: Link, ms: seq<Message>) {
    |ms| == |x.queued| && forall i :: 0 <= i < |ms| ==> ParseLine(x.queued[i]) == Some(ms[i])
  }

  lemma MessagesCut(x: Link, ms: seq<Message>)
    requires Inv(x) && QueueIs(x, ms)
    ensures !x.box.failed && x.box.incoming <= ms && |x.box.incoming| == |x.lines|
  {
    LinesCut(x);
    var n := |x.lines|;
    LinesAreTaken(EMPTY, x.lines, ms[..n]);
    assert [] + ms[..n] == ms[..n];
  }

  /** End to end: when each line queued is one the parser accepts, what the receiver has
      parsed is a prefix of the messages queued, in order and with equal contents, and nothing
      is lost when the connection runs dry. */
  lemma MessagesArrive(xs: seq<Link>, steps: seq<Step>, k: nat, ms: seq<Message>)
    requires IsRun(xs, steps) && k <= |steps| && QueueIs(xs[k], ms)
    ensures var box := xs[k].box;
            && !box.failed && box.incoming <= ms && |box.incoming| == |xs[k].lines|
            && (xs[k].messages == [] && xs[k].wire == "" ==> box.incoming == ms)
  {
    RunKeeps(xs, steps, k);
    LinesCut(xs[k]);
    MessagesCut(xs[k], ms);
  }
}
