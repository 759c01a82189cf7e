/** Getting to know the peers: HELLO, HELLO_REPLY, CONNECT and ACK_CONNECT
    (peer-time-sync/messages.c:90-115, 159-341).

    `ReplyBytes` is the text of a HELLO_REPLY and `Acceptable` the receiver's check; the class
    Node holds the lists and its methods are the program's handlers. */
module Discovery {
  import opened Wrappers
  import opened Peers

  const HELLO_REPLY := 2
  const MESSAGE_SIZE := 1
  const HEADER_SIZE := 3
  const BUFFER_SIZE := 65536

  // ----- The message

  function ReplyBytes(others: seq<Addr>): seq<Byte>
    requires |others| <= MAX_CAPACITY
  {
    var header: seq<Byte> := [HELLO_REPLY, |others| / 0x100, |others| % 0x100];
    header + Records(others)
  }

  /** The count field, from network byte order. */
  function CountOf(msg: seq<Byte>): nat
    requires |msg| >= HEADER_SIZE
  {
    0x100 * msg[1] as int + msg[2] as int
  }

  predicate HasLength(msg: seq<Byte>) {
    |msg| >= HEADER_SIZE && |msg| == HEADER_SIZE + RECORD_SIZE * CountOf(msg)
  }

  function AddrAt(msg: seq<Byte>, i: nat): Addr
    requires HasLength(msg) && i < CountOf(msg)
  {
    var at := HEADER_SIZE + RECORD_SIZE * i;
    Addr(msg[at + 1], msg[at + 2], msg[at + 3], msg[at + 4], msg[at + 5], msg[at + 6])
  }

  predicate RecordFits(msg: seq<Byte>, i: nat, sender: Addr, own: seq<Addr>)
    requires HasLength(msg) && i < CountOf(msg)
  {
    var p := AddrAt(msg, i);
    msg[HEADER_SIZE + RECORD_SIZE * i] == ADDRESS_SIZE && p.Port() != 0 && p != sender && p !in own
  }

  /** The check of a HELLO_REPLY's contents. */
  predicate Acceptable(msg: seq<Byte>, sender: Addr, own: seq<Addr>) {
    HasLength(msg) && forall i :: 0 <= i < CountOf(msg) ==> RecordFits(msg, i, sender, own)
  }

  function Listed(msg: seq<Byte>): (peers: seq<Addr>)
    requires HasLength(msg)
    ensures |peers| == CountOf(msg) && forall i :: 0 <= i < |peers| ==> peers[i] == AddrAt(msg, i)
  {
    seq(CountOf(msg), i requires 0 <= i < CountOf(msg) && HasLength(msg) => AddrAt(msg, i))
  }

  lemma {:induction false} RecordAt(peers: seq<Addr>, i: nat)
    requires i < |peers|
    ensures Records(peers)[RECORD_SIZE * i..RECORD_SIZE * (i + 1)] == Record(peers[i])
  {
    var front, last := peers[..|peers| - 1], peers[|peers| - 1];
    var bytes := Records(front);
    if i < |front| {
      RecordAt(front, i);
      assert (bytes + Record(last))[RECORD_SIZE * i..RECORD_SIZE * (i + 1)] ==
             bytes[RECORD_SIZE * i..RECORD_SIZE * (i + 1)];
    } else {
      assert (bytes + Record(last))[RECORD_SIZE * i..RECORD_SIZE * (i + 1)] == Record(last);
    }
  }

  lemma ReplyLength(others: seq<Addr>)
    requires |others| <= MAX_CAPACITY
    ensures HasLength(ReplyBytes(others)) && CountOf(ReplyBytes(others)) == |others|
  {
  }

  lemma RecordReadsBack(others: seq<Addr>, i: nat)
    requires i < |others| <= MAX_CAPACITY && HasLength(ReplyBytes(others)) && CountOf(ReplyBytes(others)) == |others|
    ensures AddrAt(ReplyBytes(others), i) == others[i]
    ensures ReplyBytes(others)[HEADER_SIZE + RECORD_SIZE * i] == ADDRESS_SIZE
  {
    var msg, at := ReplyBytes(others), HEADER_SIZE + RECORD_SIZE * i;
    RecordAt(others, i);
    assert msg[HEADER_SIZE..] == Records(others);
    assert msg[at..at + RECORD_SIZE] == Record(others[i]);
    var r := msg[at..at + RECORD_SIZE];
    assert r[0] == msg[at] && r[1] == msg[at + 1] && r[2] == msg[at + 2] && r[3] == msg[at + 3];
    assert r[4] == msg[at + 4] && r[5] == msg[at + 5] && r[6] == msg[at + 6];
  }

  /** Encoding a list and reading the records gives the list back. */
  lemma ReplyReadsBack(others: seq<Addr>)
    requires |others| <= MAX_CAPACITY
    ensures HasLength(ReplyBytes(others)) && Listed(ReplyBytes(others)) == others
  {
    ReplyLength(others);
    forall i | 0 <= i < |others|
      ensures AddrAt(ReplyBytes(others), i) == others[i]
    {
      RecordReadsBack(others, i);
    }
  }

  /** HELLO_REPLY begins with the type 2 and the number of peers in network order. */
  lemma ReplyHeader(others: seq<Addr>)
    requires |others| <= 65535
    ensures var msg := ReplyBytes(others);
            |msg| == 3 + 7 * |others| && msg[0] == 2 && 256 * msg[1] as int + msg[2] as int == |others|
  {
  }

  /** For each peer follow the length 4 of its address, the address, and the port in network
      order. */
  lemma ReplyLayout(others: seq<Addr>, i: nat)
    requires i < |others| <= 65535
    ensures var msg, at := ReplyBytes(others), 3 + 7 * i;
            && at + 7 <= |msg|
            && msg[at..at + 7] ==
               [4, others[i].a, others[i].b, others[i].c, others[i].d, others[i].high, others[i].low]
  {
    RecordAt(others, i);
    assert ReplyBytes(others)[3..] == Records(others);
    assert ReplyBytes(others)[3 + 7 * i..3 + 7 * i + 7] == Records(others)[7 * i..7 * (i + 1)];
  }

  /** A peer that a reply to this node may list. */
  predicate MayBeListed(p: Addr, sender: Addr, own: seq<Addr>) {
    (p.high != 0 || p.low != 0) && p != sender && p !in own
  }

  lemma {:induction false} SameRecords(bytes: seq<Byte>, peers: seq<Addr>)
    requires |bytes| == 7 * |peers|
    requires forall i :: 0 <= i < |peers| ==> bytes[7 * i..7 * (i + 1)] == Record(peers[i])
    ensures bytes == Records(peers)
  {
    if peers != [] {
      var k := |peers| - 1;
      forall i | 0 <= i < k
        ensures bytes[..7 * k][7 * i..7 * (i + 1)] == Record(peers[i])
      {
        assert bytes[..7 * k][7 * i..7 * (i + 1)] == bytes[7 * i..7 * (i + 1)];
      }
      SameRecords(bytes[..7 * k], peers[..k]);
      assert bytes == bytes[..7 * k] + bytes[7 * k..7 * (k + 1)];
    }
  }

  lemma RecordOf(msg: seq<Byte>, i: nat)
    requires HasLength(msg) && i < CountOf(msg) && msg[3 + 7 * i] == 4
    ensures msg[3..][7 * i..7 * (i + 1)] == Record(AddrAt(msg, i))
  {
    assert |msg[3..][7 * i..7 * (i + 1)]| == 7;
  }

  lemma AcceptableLists(msg: seq<Byte>, sender: Addr, own: seq<Addr>)
    requires Acceptable(msg, sender, own)
    ensures Lists(msg, Listed(msg), sender, own)
  {
    var peers := Listed(msg);
    forall i | 0 <= i < |peers|
      ensures msg[3..][7 * i..7 * (i + 1)] == Record(peers[i]) && MayBeListed(peers[i], sender, own)
    {
      assert RecordFits(msg, i, sender, own);
      RecordOf(msg, i);
    }
    SameRecords(msg[3..], peers);
  }

  lemma ListsAcceptable(msg: seq<Byte>, peers: seq<Addr>, sender: Addr, own: seq<Addr>)
    requires Lists(msg, peers, sender, own)
    ensures Acceptable(msg, sender, own) && Listed(msg) == peers
  {
    forall i | 0 <= i < |peers|
      ensures AddrAt(msg, i) == peers[i] && RecordFits(msg, i, sender, own)
    {
      RecordAt(peers, i);
      var r, at := msg[3..][7 * i..7 * (i + 1)], 3 + 7 * i;
      assert r == Record(peers[i]);
      assert r[0] == msg[at] && r[1] == msg[at + 1] && r[2] == msg[at + 2] && r[3] == msg[at + 3];
      assert r[4] == msg[at + 4] && r[5] == msg[at + 5] && r[6] == msg[at + 6];
      assert MayBeListed(peers[i], sender, own);
    }
  }

  /** The message is a count and that many records, of peers that may be listed. */
  ghost predicate Lists(msg: seq<Byte>, peers: seq<Addr>, sender: Addr, own: seq<Addr>) {
    && |msg| >= 3 && 256 * msg[1] as int + msg[2] as int == |peers| && msg[3..] == Records(peers)
    && forall i :: 0 <= i < |peers| ==> MayBeListed(peers[i], sender, own)
  }

  /** A reply is accepted exactly when it consists of its header and as many records as the
      header says, none of them of port zero, of the sender or of the receiver. */
  lemma ReplyLanguage(msg: seq<Byte>, peers: seq<Addr>, sender: Addr, own: seq<Addr>)
    ensures Acceptable(msg, sender, own) && Listed(msg) == peers <==> Lists(msg, peers, sender, own)
  {
    if Acceptable(msg, sender, own) {
      AcceptableLists(msg, sender, own);
    }
    if Lists(msg, peers, sender, own) {
      ListsAcceptable(msg, peers, sender, own);
    }
  }

  /** The reply a node with the addresses `sources` sends to `dest` lists exactly its other
      peers, in order and without duplicates.  The receiver's check accepts it exactly when
      none of them has port zero or is an address of the receiver. */
  lemma HelloReplyRoundTrip(peers: seq<Addr>, sources: seq<Addr>, sender: Addr, dest: Addr, own: seq<Addr>)
    requires Ordered(peers) && |peers| <= MAX_CAPACITY && sender in sources
    ensures var others := Others(peers, sources, dest); var msg := ReplyBytes(others);
            && Ordered(others) && (forall a :: a in others <==> a in peers && a !in sources && a != dest)
            && HasLength(msg) && Listed(msg) == others
            && (Acceptable(msg, sender, own) <==> forall a :: a in others ==> a.Port() != 0 && a !in own)
  {
    var others := Others(peers, sources, dest);
    OthersKeep(peers, sources, dest);
    ReplyReadsBack(others);
    ReplyLength(others);
    var msg := ReplyBytes(others);
    forall i | 0 <= i < |others|
      ensures RecordFits(msg, i, sender, own) <==> others[i].Port() != 0 && others[i] !in own
    {
      RecordReadsBack(others, i);
      assert others[i] in others;
    }
    if Acceptable(msg, sender, own) {
      forall a | a in others
        ensures a.Port() != 0 && a !in own
      {
        var i :| 0 <= i < |others| && others[i] == a;
        assert RecordFits(msg, i, sender, own);
      }
    }
  }

  /** A receiver with one address accepts every reply that was sent to it with real ports. */
  lemma SingleAddressAccepts(peers: seq<Addr>, sources: seq<Addr>, sender: Addr, dest: Addr)
    requires Ordered(peers) && |peers| <= MAX_CAPACITY && sender in sources
    requires forall a :: a in peers ==> a.Port() != 0
    ensures Acceptable(ReplyBytes(Others(peers, sources, dest)), sender, [dest])
  {
    HelloReplyRoundTrip(peers, sources, sender, dest, [dest]);
  }

  // ----- Adding what a reply lists

  function AllAdded(list: seq<Addr>, peers: seq<Addr>): seq<Addr> {
    if peers == [] then list else Added(AllAdded(list, peers[..|peers| - 1]), peers[|peers| - 1])
  }

  lemma AllAddedStep(list: seq<Addr>, peers: seq<Addr>, p: Addr)
    ensures AllAdded(list, peers + [p]) == Added(AllAdded(list, peers), p)
  {
    assert (peers + [p])[..|peers|] == peers;
  }

  /** An ordered list added to an empty one is that list. */
  lemma {:induction false} AddedToNothing(peers: seq<Addr>)
    requires Ordered(peers) && |peers| <= MAX_CAPACITY
    ensures AllAdded([], peers) == peers
  {
    if peers != [] {
      var front, last := peers[..|peers| - 1], peers[|peers| - 1];
      AddedToNothing(front);
      assert peers == front + [last];
      forall a | a in front
        ensures Less(a, last)
      {
        var i :| 0 <= i < |front| && front[i] == a;
        assert Less(peers[i], peers[|peers| - 1]);
      }
      LessIsTotal(last, last, last);
      InsertAtEnd(front, last);
    }
  }

  predicate Disjoint(list: seq<Addr>, own: seq<Addr>) {
    forall a :: a in list ==> a !in own
  }

  // ----- The handlers

  class Node {
    const myAddresses: array<Addr>
    const knownPeer: Addr
    const peerList: PeerList
    const waitingForAckConnect: PeerList
    const sendBuffer: array<Byte>
    var waitingForHelloReply: bool

    /** No list holds an address of the node itself. */
    ghost predicate Valid()
      reads this, myAddresses, peerList, waitingForAckConnect
    {
      && peerList != waitingForAckConnect && sendBuffer.Length == BUFFER_SIZE
      && peerList.Valid() && waitingForAckConnect.Valid()
      && Disjoint(peerList.peers, myAddresses[..]) && Disjoint(waitingForAckConnect.peers, myAddresses[..])
    }

    constructor (addresses: array<Addr>, known: Addr, waiting: bool)
      ensures Valid() && fresh(peerList) && fresh(waitingForAckConnect) && fresh(sendBuffer)
      ensures myAddresses == addresses && knownPeer == known && waitingForHelloReply == waiting
      ensures peerList.peers == [] && waitingForAckConnect.peers == []
    {
      myAddresses := addresses;
      knownPeer := known;
      waitingForHelloReply := waiting;
      peerList := new PeerList();
      waitingForAckConnect := new PeerList();
      sendBuffer := new Byte[BUFFER_SIZE](_ => 0);
    }

    /** create_hello_reply_message: the message is in sendBuffer[..length].  The branch that
        reports an incorrect message cannot be taken: both passes agree. */
    method CreateHelloReply(dest: Addr) returns (length: nat)
      requires Valid()
      modifies sendBuffer
      ensures var others := Others(peerList.peers, myAddresses[..], dest);
              if HEADER_SIZE + RECORD_SIZE * |others| >= BUFFER_SIZE then length == 0
              else length == |ReplyBytes(others)| <= BUFFER_SIZE && sendBuffer[..length] == ReplyBytes(others)
    {
      ghost var others := Others(peerList.peers, myAddresses[..], dest);
      var count := peerList.CountExcl(myAddresses, dest);
      sendBuffer[0] := HELLO_REPLY;
      sendBuffer[1], sendBuffer[2] := count / 0x100, count % 0x100;
      var size := RECORD_SIZE * count;
      if HEADER_SIZE + size >= BUFFER_SIZE {
        return 0;
      }
      ghost var header: seq<Byte> := [HELLO_REPLY, count / 0x100, count % 0x100];
      assert sendBuffer[..HEADER_SIZE] == header;
      var written := peerList.WriteToBufExcl(sendBuffer, HEADER_SIZE, size, myAddresses, dest);
      assert written;
      length := HEADER_SIZE + size;
      assert sendBuffer[..length] == sendBuffer[..HEADER_SIZE] + sendBuffer[HEADER_SIZE..length];
    }

    method HandleHello(bufLen: nat, sender: Addr) returns (reply: Option<seq<Byte>>)
      requires Valid()
      modifies peerList, sendBuffer
      ensures Valid()
      ensures var before := old(peerList.peers);
              var others := Others(before, myAddresses[..], sender);
              var answers := bufLen == MESSAGE_SIZE && sender !in myAddresses[..] &&
                             HEADER_SIZE + RECORD_SIZE * |others| < BUFFER_SIZE;
              && peerList.peers == (if answers then Added(before, sender) else before)
              && reply == (if answers && (sender in before || |before| < MAX_CAPACITY)
                           then Some(ReplyBytes(others)) else None)
    {
      if bufLen != MESSAGE_SIZE {
        return None;
      }
      var own := IsSrcAddr(sender, myAddresses);
      if own {
        return None;
      }
      var length := CreateHelloReply(sender);
      if length > 0 {
        var added := peerList.Add(sender);
        if added >= 0 {
          return Some(sendBuffer[..length]);
        }
      }
      return None;
    }

    /** check_hello_reply. */
    method CheckHelloReply(msg: seq<Byte>, sender: Addr) returns (correct: bool)
      ensures correct <==> waitingForHelloReply && sender == knownPeer && sender !in myAddresses[..] &&
                           Acceptable(msg, sender, myAddresses[..])
    {
      if !waitingForHelloReply || sender != knownPeer {
        return false;
      }
      var own := IsSrcAddr(sender, myAddresses);
      if own {
        return false;
      }
      if |msg| < HEADER_SIZE {
        return false;
      }
      var count := CountOf(msg);
      if |msg| != HEADER_SIZE + RECORD_SIZE * count {
        return false;
      }
      var buf := HEADER_SIZE;
      for i := 0 to count
        invariant buf == HEADER_SIZE + RECORD_SIZE * i
        invariant forall j :: 0 <= j < i ==> RecordFits(msg, j, sender, myAddresses[..])
      {
        if msg[buf] != ADDRESS_SIZE {
          assert !RecordFits(msg, i, sender, myAddresses[..]);
          return false;
        }
        var p := Addr(msg[buf + 1], msg[buf + 2], msg[buf + 3], msg[buf + 4], msg[buf + 5], msg[buf + 6]);
        assert p == AddrAt(msg, i);
        if p.Port() == 0 {
          assert !RecordFits(msg, i, sender, myAddresses[..]);
          return false;
        }
        var mine := IsSrcAddr(p, myAddresses);
        if p == sender || mine {
          assert !RecordFits(msg, i, sender, myAddresses[..]);
          return false;
        }
        buf := buf + RECORD_SIZE;
      }
      return true;
    }

    /** `connects` are the addresses CONNECT is sent to. */
    method HandleHelloReply(msg: seq<Byte>, sender: Addr) returns (connects: seq<Addr>)
      requires Valid()
      modifies this, peerList, waitingForAckConnect
      ensures Valid()
      ensures var correct := old(waitingForHelloReply) && sender == knownPeer && sender !in myAddresses[..] &&
                             Acceptable(msg, sender, myAddresses[..]);
              if correct then
                && !waitingForHelloReply && connects == Listed(msg)
                && waitingForAckConnect.peers == AllAdded(old(waitingForAckConnect.peers), Listed(msg))
                && peerList.peers == Added(old(peerList.peers), sender)
              else
                && waitingForHelloReply == old(waitingForHelloReply) && connects == []
                && waitingForAckConnect.peers == old(waitingForAckConnect.peers)
                && peerList.peers == old(peerList.peers)
    {
      connects := [];
      var correct := CheckHelloReply(msg, sender);
      if !correct {
        return;
      }
      waitingForHelloReply := false;
      var count, buf := CountOf(msg), HEADER_SIZE;
      ghost var before := waitingForAckConnect.peers;
      for i := 0 to count
        invariant buf == HEADER_SIZE + RECORD_SIZE * i
        invariant Valid() && !waitingForHelloReply && peerList.peers == old(peerList.peers)
        invariant connects == Listed(msg)[..i]
        invariant waitingForAckConnect.peers == AllAdded(before, connects)
      {
        buf := buf + 1;
        var p := Addr(msg[buf], msg[buf + 1], msg[buf + 2], msg[buf + 3], msg[buf + 4], msg[buf + 5]);
        buf := buf + 6;
        assert p == Listed(msg)[i] && RecordFits(msg, i, sender, myAddresses[..]);
        var _ := waitingForAckConnect.Add(p);
        AllAddedStep(before, connects, p);
        connects := connects + [p];
      }
      assert Listed(msg)[..count] == Listed(msg);
      var _ := peerList.Add(sender);
    }

    /** Whether ACK_CONNECT is sent. */
    method HandleConnect(bufLen: nat, sender: Addr) returns (acknowledged: bool)
      requires Valid()
      modifies peerList
      ensures Valid()
      ensures acknowledged <==> bufLen == MESSAGE_SIZE && sender !in myAddresses[..] &&
                                (sender in old(peerList.peers) || |old(peerList.peers)| < MAX_CAPACITY)
      ensures peerList.peers == if acknowledged then Added(old(peerList.peers), sender) else old(peerList.peers)
      ensures acknowledged ==> sender in peerList.peers
    {
      if bufLen != MESSAGE_SIZE {
        return false;
      }
      if peerList.Full() && !peerList.Contains(sender) {
        return false;
      }
      var own := IsSrcAddr(sender, myAddresses);
      if own {
        return false;
      }
      var _ := peerList.Add(sender);
      return true;
    }

    method HandleAckConnect(bufLen: nat, sender: Addr) returns (connected: bool)
      requires Valid()
      modifies peerList, waitingForAckConnect
      ensures Valid()
      ensures connected <==> bufLen == MESSAGE_SIZE && sender in old(waitingForAckConnect.peers) &&
                             (sender in old(peerList.peers) || |old(peerList.peers)| < MAX_CAPACITY)
      ensures peerList.peers == if connected then Added(old(peerList.peers), sender) else old(peerList.peers)
      ensures waitingForAckConnect.peers ==
              if connected then Without(old(waitingForAckConnect.peers), sender) else old(waitingForAckConnect.peers)
      ensures connected ==> sender in peerList.peers && sender !in waitingForAckConnect.peers
    {
      if bufLen != MESSAGE_SIZE {
        return false;
      }
      if !waitingForAckConnect.Contains(sender) {
        return false;
      }
      if peerList.Full() && !peerList.Contains(sender) {
        return false;
      }
      var own := IsSrcAddr(sender, myAddresses);
      if own {
        return false;
      }
      waitingForAckConnect.Remove(sender);
      var _ := peerList.Add(sender);
      return true;
    }
  }

  /** The whole exchange of HELLO and HELLO_REPLY between two nodes: the receiver, waiting with
      an empty list, ends up waiting for exactly the sender's other peers. */
  lemma ReplyTellsThePeers(peers: seq<Addr>, sources: seq<Addr>, sender: Addr, dest: Addr, own: seq<Addr>)
    requires Ordered(peers) && |peers| <= MAX_CAPACITY && sender in sources
    requires forall a :: a in peers ==> a.Port() != 0 && (a in own ==> a == dest)
    ensures var others := Others(peers, sources, dest); var msg := ReplyBytes(others);
            && Acceptable(msg, sender, own) && AllAdded([], Listed(msg)) == others
            && forall a :: a in AllAdded([], Listed(msg)) <==> a in peers && a !in sources && a != dest
  {
    HelloReplyRoundTrip(peers, sources, sender, dest, own);
    AddedToNothing(Others(peers, sources, dest));
  }
}
