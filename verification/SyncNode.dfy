/** One node of peer-time-sync: the record NodeData and the handlers of
    peer-time-sync/messages.c that drive clock synchronization.

    `Node` is the value of the record and the functions say what each handler does to it.
    The class NodeData is the record itself; its methods update the fields in the order of
    the source and are proved against the functions.  A handler takes one instant for each
    time the source reads the clock. */
module SyncNode {
  import opened Wrappers
  import opened Clock

  type Addr = int

  const LEADER_SYNCHRONIZATION_DELAY := 2
  const SYNCHRONIZATION_CHECK_DELAY := 20
  const DELAY_RESPONSE_TIME := 5
  const SYNC_START_DELAY := 5

  datatype Msg =
    | SyncStart(level: Byte, timestamp: nat)
    | DelayRequest
    | DelayResponse(level: Byte, timestamp: nat)

  /** A message handed to the network: its destination and the instant of the clock
      reading taken just before it was sent. */
  datatype Send = Send(to: Addr, msg: Msg, at: int)

  /** `syncedPeer` is None until the source first assigns synchronized_peer. */
  datatype Node = Node(
    peers: seq<Addr>,
    level: Byte, offset: int, syncedPeer: Option<Addr>,
    nextSyncStart: int, nextSyncCheck: int, lastSyncStart: int, asked: seq<Addr>,
    synchronizing: bool, synchronizingLevel: Byte, peerToSync: Addr, waitingForDelayResponse: int,
    T1: int, T2: int, T3: int, T4: int)

  /** The instants at which the handler of a message reads the clock, in order; most handlers
      read it less than four times. */
  datatype Readings = Readings(first: int, second: int, third: int, fourth: int) {
    predicate From(start: int) {
      start <= first <= second <= third <= fourth
    }
  }

  datatype Outcome = Outcome(node: Node, sends: seq<Send>)

  /** The state after initialize_node_data; the fields it leaves unset are arbitrary. */
  predicate Initial(n: Node) {
    && n.peers == [] && n.asked == []
    && n.level == UNSYNCHRONIZED && n.offset == 0 && n.syncedPeer == None
    && n.lastSyncStart == 0 && !n.synchronizing
  }

  function ReadClock(n: Node, start: int, t: int): nat
    requires start <= t
  {
    GetClock(n.level, n.offset, Natural(start, t))
  }

  predicate SyncStartOk(n: Node, from: Addr, level: Byte) {
    level < UNSYNCHRONIZED - 1 && from in n.peers
  }

  predicate SyncedTo(n: Node, from: Addr) {
    n.level < UNSYNCHRONIZED && n.syncedPeer == Some(from)
  }

  function OnSyncStart(n: Node, start: int, from: Addr, level: Byte, timestamp: nat, r: Readings): Outcome
    requires r.From(start)
  {
    if !SyncStartOk(n, from, level) || n.synchronizing then
      Outcome(n, [])
    else if SyncedTo(n, from) && level >= n.level then
      Outcome(n.(level := UNSYNCHRONIZED, offset := 0), [])
    else if !SyncedTo(n, from) && level + 1 >= n.level then
      Outcome(n, [])
    else
      var n1 := if SyncedTo(n, from) then n.(nextSyncCheck := After(r.second, SYNCHRONIZATION_CHECK_DELAY)) else n;
      Outcome(BeginExchange(n1, start, from, level, timestamp, Natural(start, r.first), r.third, r.fourth),
              [Send(from, DelayRequest, r.third)])
  }

  function BeginExchange(n: Node, start: int, from: Addr, level: Byte, timestamp: nat, receiveTime: nat,
                         t3: int, sent: int): Node
    requires start <= t3
  {
    n.(synchronizing := true, synchronizingLevel := level, peerToSync := from,
       T1 := timestamp, T2 := receiveTime, T3 := Natural(start, t3),
       waitingForDelayResponse := After(sent, DELAY_RESPONSE_TIME))
  }

  function OnDelayRequest(n: Node, start: int, from: Addr, t4: int, received: int): Outcome
    requires start <= t4 && start <= received
  {
    if from !in n.asked || Natural(start, received) > n.lastSyncStart + DELAY_RESPONSE_TIME then
      Outcome(n, [])
    else
      Outcome(n, [Send(from, DelayResponse(n.level, ReadClock(n, start, t4)), t4)])
  }

  /** Whether a DELAY_RESPONSE completes the open exchange. */
  predicate Accepts(n: Node, from: Addr, level: Byte, timestamp: nat) {
    n.synchronizing && from == n.peerToSync && level == n.synchronizingLevel && timestamp >= n.T1
  }

  function OnDelayResponse(n: Node, from: Addr, level: Byte, timestamp: nat, r: Readings): Outcome {
    if !Accepts(n, from, level, timestamp) then
      Outcome(n, [])
    else
      var n1 := if n.level >= UNSYNCHRONIZED - 1 && level + 1 < UNSYNCHRONIZED - 1
                then n.(nextSyncStart := After(r.first, 0)) else n;
      Outcome(n1.(T4 := timestamp, level := (level + 1) % 256,
                  offset := OffsetOf(n.T1, n.T2, n.T3, timestamp), syncedPeer := Some(from),
                  nextSyncCheck := After(r.second, SYNCHRONIZATION_CHECK_DELAY), synchronizing := false), [])
  }

  function OnLeader(n: Node, argument: Byte, t: int): Node {
    if argument == LEADER then
      n.(level := LEADER, nextSyncStart := After(t, LEADER_SYNCHRONIZATION_DELAY))
    else if argument == UNSYNCHRONIZED && n.level == LEADER then
      n.(level := UNSYNCHRONIZED)
    else
      n
  }

  /** The first half of check_and_handle_timers: the upstream has been silent for too long. */
  function CheckUpstream(n: Node, t: int): Node {
    if LEADER < n.level < UNSYNCHRONIZED && n.nextSyncCheck < t
    then n.(level := UNSYNCHRONIZED, offset := 0) else n
  }

  /** One SYNC_START for each of the first `count` peers, each with its own clock reading. */
  function SyncStarts(n: Node, start: int, times: seq<int>, count: nat): (sends: seq<Send>)
    requires count <= |n.peers| && count <= |times|
    requires forall k :: 0 <= k < |times| ==> start <= times[k]
    ensures |sends| == count
    ensures forall k :: 0 <= k < count ==>
              sends[k] == Send(n.peers[k], SyncStart(n.level, ReadClock(n, start, times[k])), times[k])
  {
    seq(count, k requires 0 <= k < count =>
      Send(n.peers[k], SyncStart(n.level, ReadClock(n, start, times[k])), times[k]))
  }

  /** The instants at which check_and_handle_timers reads the clock: for the two comparisons,
      for each SYNC_START, for last_sync_start and for the next deadline. */
  datatype TimerReadings = TimerReadings(check: int, compare: int, each: seq<int>, last: int, deadline: int) {
    predicate From(start: int, n: Node) {
      && start <= check <= compare <= last <= deadline && |each| == |n.peers|
      && forall k :: 0 <= k < |each| ==> compare <= each[k] <= last
    }
  }

  function OnTimers(n: Node, start: int, r: TimerReadings): Outcome
    requires r.From(start, n)
  {
    var n1 := CheckUpstream(n, r.check);
    if n1.level < UNSYNCHRONIZED - 1 && n1.nextSyncStart < r.compare then
      Outcome(n1.(asked := if n1.peers == [] then n1.asked else n1.peers,
                  lastSyncStart := Natural(start, r.last), nextSyncStart := After(r.deadline, SYNC_START_DELAY)),
              SyncStarts(n1, start, r.each, |n1.peers|))
    else
      Outcome(n1, [])
  }

  class NodeData {
    const start: int  // start_time in clock.c

    var peers: seq<Addr>
    var level: Byte
    var offset: int
    var syncedPeer: Option<Addr>
    var nextSyncStart: int
    var nextSyncCheck: int
    var lastSyncStart: int
    var asked: seq<Addr>
    var synchronizing: bool
    var synchronizingLevel: Byte
    var peerToSync: Addr
    var waitingForDelayResponse: int
    var T1: int
    var T2: int
    var T3: int
    var T4: int

    function State(): Node
      reads this
    {
      Node(peers, level, offset, syncedPeer, nextSyncStart, nextSyncCheck, lastSyncStart, asked,
           synchronizing, synchronizingLevel, peerToSync, waitingForDelayResponse, T1, T2, T3, T4)
    }

    constructor (start: int)
      ensures Initial(State()) && this.start == start
    {
      this.start := start;
      peers, asked := [], [];
      level, offset, syncedPeer := UNSYNCHRONIZED, 0, None;
      lastSyncStart, synchronizing := 0, false;
    }

    method UpdateOffset()
      modifies this`offset
      ensures State() == old(State()).(offset := OffsetOf(T1, T2, T3, T4))
    {
      offset := T2 - T1 + T3 - T4;
      offset := TruncDiv(offset, 2);
    }

    method HandleSyncStart(from: Addr, senderLevel: Byte, timestamp: nat, r: Readings) returns (sends: seq<Send>)
      requires r.From(start)
      modifies this
      ensures Outcome(State(), sends) == OnSyncStart(old(State()), start, from, senderLevel, timestamp, r)
    {
      var receiveTime := Natural(start, r.first);
      if senderLevel >= UNSYNCHRONIZED - 1 || from !in peers {
        return [];
      }
      if synchronizing {
        return [];
      }
      var synchronizedToSender := level < UNSYNCHRONIZED && syncedPeer == Some(from);
      if synchronizedToSender {
        if senderLevel >= level {
          level := UNSYNCHRONIZED;
          offset := 0;
          return [];
        } else {
          nextSyncCheck := After(r.second, SYNCHRONIZATION_CHECK_DELAY);
        }
      } else {
        if senderLevel + 1 >= level {
          return [];
        }
      }
      sends := ProceedToSynchronization(from, senderLevel, timestamp, receiveTime, r.third, r.fourth);
    }

    /** The last part of handle_sync_start. */
    method ProceedToSynchronization(from: Addr, senderLevel: Byte, timestamp: nat, receiveTime: nat, t3: int, sent: int)
      returns (sends: seq<Send>)
      requires start <= t3
      modifies this
      ensures State() == BeginExchange(old(State()), start, from, senderLevel, timestamp, receiveTime, t3, sent)
      ensures sends == [Send(from, DelayRequest, t3)]
    {
      ghost var before := State();
      synchronizing := true;
      synchronizingLevel := senderLevel;
      T1 := timestamp;
      T2 := receiveTime;
      assert State() == before.(synchronizing := true, synchronizingLevel := senderLevel, T1 := timestamp,
                                T2 := receiveTime);
      peerToSync := from;
      T3 := Natural(start, t3);
      sends := [Send(from, DelayRequest, t3)];
      waitingForDelayResponse := After(sent, DELAY_RESPONSE_TIME);
    }

    method HandleDelayRequest(from: Addr, t4: int, received: int) returns (sends: seq<Send>)
      requires start <= t4 && start <= received
      ensures Outcome(State(), sends) == OnDelayRequest(State(), start, from, t4, received)
    {
      var synchronizedReceiveTime := GetClock(level, offset, Natural(start, t4));
      var receiveTime := Natural(start, received);
      if from !in asked || receiveTime > lastSyncStart + DELAY_RESPONSE_TIME {
        return [];
      }
      sends := [Send(from, DelayResponse(level, synchronizedReceiveTime), t4)];
    }

    method HandleDelayResponse(from: Addr, senderLevel: Byte, timestamp: nat, r: Readings)
      modifies this
      ensures State() == OnDelayResponse(old(State()), from, senderLevel, timestamp, r).node
    {
      if !synchronizing || from != peerToSync {
        return;
      }
      if senderLevel != synchronizingLevel || timestamp < T1 {
        return;
      }
      T4 := timestamp;
      if level >= UNSYNCHRONIZED - 1 && senderLevel + 1 < UNSYNCHRONIZED - 1 {
        nextSyncStart := After(r.first, 0);
      }
      CompleteExchange(from, senderLevel, r.second);
    }

    /** The last part of handle_delay_response. */
    method CompleteExchange(from: Addr, senderLevel: Byte, second: int)
      modifies this
      ensures State() == old(State()).(level := (senderLevel + 1) % 256, offset := OffsetOf(T1, T2, T3, T4),
                                       syncedPeer := Some(from),
                                       nextSyncCheck := After(second, SYNCHRONIZATION_CHECK_DELAY),
                                       synchronizing := false)
    {
      level := (senderLevel + 1) % 256;
      UpdateOffset();
      syncedPeer := Some(from);
      nextSyncCheck := After(second, SYNCHRONIZATION_CHECK_DELAY);
      synchronizing := false;
    }

    method HandleLeader(argument: Byte, t: int)
      modifies this`level, this`nextSyncStart
      ensures State() == OnLeader(old(State()), argument, t)
    {
      if argument == LEADER {
        level := LEADER;
        nextSyncStart := After(t, LEADER_SYNCHRONIZATION_DELAY);
      } else if argument == UNSYNCHRONIZED {
        if level != LEADER {
          return;
        }
        level := UNSYNCHRONIZED;
      }
    }

    method CheckAndHandleTimers(r: TimerReadings) returns (sends: seq<Send>)
      requires r.From(start, State())
      modifies this
      ensures Outcome(State(), sends) == OnTimers(old(State()), start, r)
    {
      sends := [];
      if LEADER < level && level < UNSYNCHRONIZED {
        if nextSyncCheck < r.check {
          level := UNSYNCHRONIZED;
          offset := 0;
        }
      }
      ghost var n1 := State();
      if level < UNSYNCHRONIZED - 1 {
        if nextSyncStart < r.compare {
          if peers != [] {
            var next := 0;
            while next < |peers|
              invariant 0 <= next <= |peers| && State() == n1
              invariant sends == SyncStarts(n1, start, r.each, next)
            {
              var timestamp := GetClock(level, offset, Natural(start, r.each[next]));
              sends := sends + [Send(peers[next], SyncStart(level, timestamp), r.each[next])];
              next := next + 1;
            }
            asked := peers;
          }
          lastSyncStart := Natural(start, r.last);
          nextSyncStart := After(r.deadline, SYNC_START_DELAY);
        }
      }
    }
  }
}
