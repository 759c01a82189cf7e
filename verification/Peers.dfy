/** Lists of peers (peer-time-sync/peers.cpp): std::set of addresses ordered by SockaddrInLess,
    with a capacity, and the two passes that count and write a list without the source and the
    destination of a message. */
module Peers {
  import opened Wrappers

  const MAX_CAPACITY := 65535
  const RECORD_SIZE := 7
  const ADDRESS_SIZE := 4

  /** A sockaddr_in as its six bytes in network order: a.b.c.d and the port. */
  datatype Addr = Addr(a: Byte, b: Byte, c: Byte, d: Byte, high: Byte, low: Byte) {
    /** sin_addr.s_addr and sin_port as a little-endian host reads them. */
    function Ip(): int {
      a + 0x100 * b + 0x10000 * c + 0x1000000 * d
    }

    function Port(): int {
      high + 0x100 * low
    }
  }

  predicate Less(x: Addr, y: Addr) {
    if x.Ip() != y.Ip() then x.Ip() < y.Ip() else x.Port() < y.Port()
  }

  lemma SameDigits(first: Byte, rest: int, other: Byte, otherRest: int)
    requires first + 0x100 * rest == other + 0x100 * otherRest
    ensures first == other && rest == otherRest
  {
  }

  /** SockaddrInLess is a strict total order, and what it cannot order is equal. */
  lemma LessIsTotal(x: Addr, y: Addr, z: Addr)
    ensures !Less(x, x)
    ensures Less(x, y) && Less(y, z) ==> Less(x, z)
    ensures Less(x, y) || Less(y, x) || x == y
  {
    if !Less(x, y) && !Less(y, x) {
      SameDigits(x.a, x.b + 0x100 * x.c + 0x10000 * x.d, y.a, y.b + 0x100 * y.c + 0x10000 * y.d);
      SameDigits(x.b, x.c + 0x100 * x.d, y.b, y.c + 0x100 * y.d);
      SameDigits(x.c, x.d, y.c, y.d);
      SameDigits(x.high, x.low, y.high, y.low);
    }
  }

  /** On a little-endian host the bytes of the address decide from the last to the first, then
      the low byte of the port, then the high one. */
  lemma LessIsLexicographic(x: Addr, y: Addr)
    ensures Less(x, y) <==>
            if x.d != y.d then x.d < y.d
            else if x.c != y.c then x.c < y.c
            else if x.b != y.b then x.b < y.b
            else if x.a != y.a then x.a < y.a
            else if x.low != y.low then x.low < y.low
            else x.high < y.high
  {
  }

  ghost predicate Ordered(peers: seq<Addr>) {
    forall i, j :: 0 <= i < j < |peers| ==> Less(peers[i], peers[j])
  }

  /** std::set::insert of an address that is not in the set. */
  function Insert(peers: seq<Addr>, p: Addr): (r: seq<Addr>)
    ensures |r| == |peers| + 1
  {
    if peers == [] || Less(p, peers[0]) then [p] + peers else [peers[0]] + Insert(peers[1..], p)
  }

  lemma {:induction false} InsertMembers(peers: seq<Addr>, p: Addr)
    ensures forall a :: a in Insert(peers, p) <==> a == p || a in peers
  {
    if !(peers == [] || Less(p, peers[0])) {
      InsertMembers(peers[1..], p);
      assert peers == [peers[0]] + peers[1..];
    }
  }

  lemma {:induction false} InsertOrdered(peers: seq<Addr>, p: Addr)
    requires Ordered(peers) && p !in peers
    ensures Ordered(Insert(peers, p))
  {
    if peers != [] {
      if Less(p, peers[0]) {
        forall j | 0 < j < |peers|
          ensures Less(p, peers[j])
        {
          LessIsTotal(p, peers[0], peers[j]);
        }
      } else {
        LessIsTotal(p, peers[0], p);
        InsertOrdered(peers[1..], p);
        InsertMembers(peers[1..], p);
        var tail := Insert(peers[1..], p);
        forall j | 0 <= j < |tail|
          ensures Less(peers[0], tail[j])
        {
          assert tail[j] in tail;
        }
      }
    }
  }

  lemma {:induction false} InsertAtEnd(peers: seq<Addr>, p: Addr)
    requires forall a :: a in peers ==> Less(a, p)
    ensures Insert(peers, p) == peers + [p]
  {
    if peers != [] {
      LessIsTotal(p, peers[0], p);
      InsertAtEnd(peers[1..], p);
      assert [peers[0]] + (peers[1..] + [p]) == peers + [p];
    }
  }

  lemma OrderedHasNoDuplicates(peers: seq<Addr>)
    requires Ordered(peers)
    ensures forall i, j :: 0 <= i < j < |peers| ==> peers[i] != peers[j]
  {
    forall i, j | 0 <= i < j < |peers|
      ensures peers[i] != peers[j]
    {
      LessIsTotal(peers[i], peers[j], peers[i]);
    }
  }

  function Without(peers: seq<Addr>, p: Addr): (r: seq<Addr>)
    ensures |r| <= |peers|
  {
    if peers == [] then []
    else if peers[0] == p then Without(peers[1..], p)
    else [peers[0]] + Without(peers[1..], p)
  }

  lemma {:induction false} WithoutKeeps(peers: seq<Addr>, p: Addr)
    requires Ordered(peers)
    ensures Ordered(Without(peers, p))
    ensures forall a :: a in Without(peers, p) <==> a in peers && a != p
  {
    if peers != [] {
      WithoutKeeps(peers[1..], p);
      var tail := Without(peers[1..], p);
      forall j | 0 <= j < |tail|
        ensures Less(peers[0], tail[j])
      {
        assert tail[j] in tail;
      }
    }
  }

  /** peer_list_add: at most MAX_CAPACITY addresses, no duplicates. */
  function Added(peers: seq<Addr>, p: Addr): seq<Addr> {
    if p in peers || |peers| >= MAX_CAPACITY then peers else Insert(peers, p)
  }

  /** Exactly the new address joins the list, unless 65535 are in it already. */
  lemma AddedExactly(peers: seq<Addr>, p: Addr)
    requires Ordered(peers)
    ensures Ordered(Added(peers, p))
    ensures forall a :: a in Added(peers, p) <==> a in peers || (a == p && |peers| < 65535)
  {
    if p !in peers {
      InsertOrdered(peers, p);
      InsertMembers(peers, p);
    }
  }

  // ----- Leaving out the source and the destination

  predicate Kept(p: Addr, sources: seq<Addr>, dest: Addr) {
    p !in sources && p != dest
  }

  /** Of the first n peers, those that are neither source nor destination. */
  function FirstOthers(peers: seq<Addr>, n: nat, sources: seq<Addr>, dest: Addr): (r: seq<Addr>)
    requires n <= |peers|
    ensures |r| <= n
  {
    if n == 0 then []
    else
      var others := FirstOthers(peers, n - 1, sources, dest);
      if Kept(peers[n - 1], sources, dest) then others + [peers[n - 1]] else others
  }

  function Others(peers: seq<Addr>, sources: seq<Addr>, dest: Addr): (r: seq<Addr>)
    ensures |r| <= |peers|
  {
    FirstOthers(peers, |peers|, sources, dest)
  }

  function Record(p: Addr): seq<Byte> {
    [ADDRESS_SIZE, p.a, p.b, p.c, p.d, p.high, p.low]
  }

  function Records(peers: seq<Addr>): (bytes: seq<Byte>)
    ensures |bytes| == RECORD_SIZE * |peers|
  {
    if peers == [] then [] else Records(peers[..|peers| - 1]) + Record(peers[|peers| - 1])
  }

  /** The record of a peer that is written. */
  function RecordIf(p: Addr, sources: seq<Addr>, dest: Addr): seq<Byte> {
    if Kept(p, sources, dest) then Record(p) else []
  }

  /** What the first n iterations write. */
  function Written(peers: seq<Addr>, n: nat, sources: seq<Addr>, dest: Addr): seq<Byte>
    requires n <= |peers|
  {
    if n == 0 then [] else Written(peers, n - 1, sources, dest) + RecordIf(peers[n - 1], sources, dest)
  }

  lemma {:induction false} WrittenIs(peers: seq<Addr>, n: nat, sources: seq<Addr>, dest: Addr)
    requires n <= |peers|
    ensures Written(peers, n, sources, dest) == Records(FirstOthers(peers, n, sources, dest))
  {
    if n > 0 {
      WrittenIs(peers, n - 1, sources, dest);
      var others := FirstOthers(peers, n - 1, sources, dest);
      assert (others + [peers[n - 1]])[..|others|] == others;
    }
  }

  lemma AllWritten(peers: seq<Addr>, sources: seq<Addr>, dest: Addr)
    ensures var records := Written(peers, |peers|, sources, dest);
            && records == Records(Others(peers, sources, dest))
            && |records| == RECORD_SIZE * |Others(peers, sources, dest)|
  {
    WrittenIs(peers, |peers|, sources, dest);
  }

  lemma {:induction false} FirstOthersKeep(peers: seq<Addr>, n: nat, sources: seq<Addr>, dest: Addr)
    requires Ordered(peers) && n <= |peers|
    ensures Ordered(FirstOthers(peers, n, sources, dest))
    ensures forall a :: a in FirstOthers(peers, n, sources, dest) <==> a in peers[..n] && Kept(a, sources, dest)
  {
    if n > 0 {
      FirstOthersKeep(peers, n - 1, sources, dest);
      assert peers[..n] == peers[..n - 1] + [peers[n - 1]];
      var kept := FirstOthers(peers, n - 1, sources, dest);
      forall j | 0 <= j < |kept|
        ensures Less(kept[j], peers[n - 1])
      {
        assert kept[j] in peers[..n - 1];
      }
    }
  }

  lemma OthersKeep(peers: seq<Addr>, sources: seq<Addr>, dest: Addr)
    requires Ordered(peers)
    ensures Ordered(Others(peers, sources, dest))
    ensures forall a :: a in Others(peers, sources, dest) <==> a in peers && Kept(a, sources, dest)
  {
    FirstOthersKeep(peers, |peers|, sources, dest);
    assert peers[..|peers|] == peers;
  }

  lemma {:induction false} OthersGrow(peers: seq<Addr>, i: nat, n: nat, sources: seq<Addr>, dest: Addr)
    requires i <= n <= |peers|
    ensures |FirstOthers(peers, i, sources, dest)| <= |FirstOthers(peers, n, sources, dest)|
    decreases n
  {
    if i < n {
      OthersGrow(peers, i, n - 1, sources, dest);
    }
  }

  /** Writing one more peer takes no more bytes than the list. */
  lemma WrittenGrows(peers: seq<Addr>, i: nat, sources: seq<Addr>, dest: Addr)
    requires i < |peers|
    ensures |Written(peers, i, sources, dest)| + |RecordIf(peers[i], sources, dest)| <=
            RECORD_SIZE * |Others(peers, sources, dest)|
  {
    WrittenIs(peers, i + 1, sources, dest);
    OthersGrow(peers, i + 1, |peers|, sources, dest);
  }

  method IsSrcAddr(addr: Addr, srcAddrs: array<Addr>) returns (found: bool)
    ensures found <==> addr in srcAddrs[..]
  {
    for i := 0 to srcAddrs.Length
      invariant addr !in srcAddrs[..i]
    {
      if addr == srcAddrs[i] {
        return true;
      }
    }
    assert srcAddrs[..srcAddrs.Length] == srcAddrs[..];
    return false;
  }

  class PeerList {
    /** The elements of the std::set in its order. */
    var peers: seq<Addr>
    /** The position of the list's iterator. */
    var cursor: nat

    ghost predicate Valid()
      reads this
    {
      Ordered(peers) && |peers| <= MAX_CAPACITY
    }

    constructor ()
      ensures Valid() && peers == []
    {
      peers, cursor := [], 0;
    }

    predicate Contains(p: Addr)
      reads this
    {
      p in peers
    }

    predicate Full()
      reads this
    {
      |peers| >= MAX_CAPACITY
    }

    /** peer_list_count: the 16-bit result never wraps. */
    function Count(): (count: int)
      requires Valid()
      reads this
      ensures count == |peers|
    {
      |peers| % 0x10000
    }

    method Add(p: Addr) returns (r: int)
      requires Valid()
      modifies this
      ensures Valid() && peers == Added(old(peers), p)
      ensures r == if p in old(peers) then 0 else if |old(peers)| < MAX_CAPACITY then 1 else -1
      ensures forall a :: a in peers <==> a in old(peers) || (r == 1 && a == p)
    {
      if Contains(p) {
        return 0;
      } else if |peers| < MAX_CAPACITY {
        InsertOrdered(peers, p);
        InsertMembers(peers, p);
        peers := Insert(peers, p);
        return 1;
      } else {
        return -1;
      }
    }

    method Remove(p: Addr)
      requires Valid()
      modifies this
      ensures Valid() && peers == Without(old(peers), p)
      ensures forall a :: a in peers <==> a in old(peers) && a != p
    {
      WithoutKeeps(peers, p);
      peers := Without(peers, p);
    }

    method CopyFrom(src: PeerList)
      requires src.Valid()
      modifies this
      ensures Valid() && peers == src.peers == old(src.peers)
    {
      peers := src.peers;
    }

    /** The 16-bit counter cannot wrap, because the list has at most 65535 elements. */
    method CountExcl(srcAddrs: array<Addr>, dest: Addr) returns (count: int)
      requires Valid()
      ensures count == |Others(peers, srcAddrs[..], dest)|
    {
      count := 0;
      ghost var sources := srcAddrs[..];
      for i := 0 to |peers|
        invariant sources == srcAddrs[..] && count == |FirstOthers(peers, i, sources, dest)|
      {
        count := CountUnlessExcluded(count, peers[i], srcAddrs, dest);
      }
    }

    /** Writes the records at `start` and says whether they filled exactly `size` bytes. */
    method WriteToBufExcl(buf: array<Byte>, start: nat, size: nat, srcAddrs: array<Addr>, dest: Addr)
      returns (ok: bool)
      requires start + size <= buf.Length
      modifies buf
      ensures ok <==> size == RECORD_SIZE * |Others(peers, srcAddrs[..], dest)|
      ensures ok ==> buf[start..start + size] == Records(Others(peers, srcAddrs[..], dest))
      ensures buf[..start] == old(buf[..start]) && buf[start + size..] == old(buf[start + size..])
    {
      var at: nat, left: nat, fits := start, size, true;
      ghost var end := start + size;
      ghost var sources, head, tail := srcAddrs[..], buf[..start], buf[end..];
      for i := 0 to |peers|
        invariant at + left == end && at == start + |Written(peers, i, sources, dest)| && sources == srcAddrs[..]
        invariant buf[start..at] == Written(peers, i, sources, dest)
        invariant buf[..start] == head && buf[end..] == tail
      {
        at, left, fits := WriteUnlessExcluded(buf, start, at, left, end, peers[i], srcAddrs, dest);
        if !fits {
          WrittenGrows(peers, i, sources, dest);
          return false;
        }
      }
      AllWritten(peers, sources, dest);
      return left == 0;
    }

    // ----- The iterator

    method IteratorBegin() returns (more: bool)
      modifies this`cursor
      ensures cursor == 0 && (more <==> cursor < |peers|)
    {
      cursor := 0;
      return cursor != |peers|;
    }

    method IteratorNext() returns (more: bool)
      requires cursor < |peers|
      modifies this`cursor
      ensures cursor == old(cursor) + 1 && (more <==> cursor < |peers|)
    {
      cursor := cursor + 1;
      return cursor != |peers|;
    }

    function IteratorGetPeer(): Addr
      requires cursor < |peers|
      reads this
    {
      peers[cursor]
    }

    /** The walk the senders of SYNC_START make: every peer once, in order. */
    method Walk() returns (visited: seq<Addr>)
      modifies this`cursor
      ensures visited == peers
    {
      visited := [];
      var more := IteratorBegin();
      while more
        invariant cursor <= |peers| && (more <==> cursor < |peers|)
        invariant visited == peers[..cursor]
        decreases |peers| - cursor
      {
        visited := visited + [IteratorGetPeer()];
        more := IteratorNext();
      }
      assert peers[..|peers|] == peers;
    }
  }

  /** One iteration of peer_list_count_excl, with its 16-bit counter. */
  method CountUnlessExcluded(count: int, p: Addr, srcAddrs: array<Addr>, dest: Addr) returns (next: int)
    requires 0 <= count < 0xFFFF
    ensures next == if Kept(p, srcAddrs[..], dest) then count + 1 else count
  {
    var own := IsSrcAddr(p, srcAddrs);
    if own {
      return count;
    }
    if p == dest {
      return count;
    }
    return (count + 1) % 0x10000;
  }

  /** One iteration of peer_list_write_to_buf_excl. */
  method WriteUnlessExcluded(buf: array<Byte>, ghost start: nat, at: nat, left: nat, ghost end: nat,
                             p: Addr, srcAddrs: array<Addr>, dest: Addr)
    returns (next: nat, rest: nat, fits: bool)
    requires start <= at && at + left == end <= buf.Length
    modifies buf
    ensures fits <==> |RecordIf(p, srcAddrs[..], dest)| <= left
    ensures fits ==> start <= next && next + rest == end
    ensures fits ==> buf[start..next] == old(buf[start..at]) + RecordIf(p, srcAddrs[..], dest)
    ensures buf[..start] == old(buf[..start]) && buf[end..] == old(buf[end..])
  {
    var own := IsSrcAddr(p, srcAddrs);
    if own {
      return at, left, true;
    }
    if p == dest {
      return at, left, true;
    }
    if left < RECORD_SIZE {
      return at, left, false;
    }
    WriteRecord(buf, start, at, end, p);
    return at + RECORD_SIZE, left - RECORD_SIZE, true;
  }

  lemma Joined(bytes: seq<Byte>, a: nat, b: nat, c: nat)
    requires a <= b <= c <= |bytes|
    ensures bytes[a..c] == bytes[a..b] + bytes[b..c]
  {
  }

  /** Appends a record to the bytes from `start` to `at`, before `end`. */
  method WriteRecord(buf: array<Byte>, ghost start: nat, at: nat, ghost end: nat, p: Addr)
    requires start <= at && at + RECORD_SIZE <= end <= buf.Length
    modifies buf
    ensures buf[start..at + RECORD_SIZE] == old(buf[start..at]) + Record(p)
    ensures buf[..start] == old(buf[..start]) && buf[end..] == old(buf[end..])
  {
    buf[at] := ADDRESS_SIZE;
    buf[at + 1], buf[at + 2], buf[at + 3], buf[at + 4] := p.a, p.b, p.c, p.d;
    buf[at + 5], buf[at + 6] := p.high, p.low;
    assert buf[start..at] == old(buf[start..at]);
    assert buf[at..at + RECORD_SIZE] == Record(p);
    Joined(buf[..], start, at, at + RECORD_SIZE);
  }
}
