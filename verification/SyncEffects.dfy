/** Exactly when each handler of a node acts, and what it then does
    (peer-time-sync/messages.c:361-581, clock.c): one condition for each outcome, every field
    and every message, with the constants of the protocol in milliseconds and nanoseconds. */
module SyncEffects {
  import opened Wrappers
  import opened Clock
  import opened SyncNode

  const SECONDS := 1_000_000_000

  // ----- SYNC_START

  predicate Follows(n: Node, from: Addr) {
    n.level < 255 && n.syncedPeer == Some(from)
  }

  /** A SYNC_START worth considering: from a peer others may synchronize to, while no exchange
      is open. */
  predicate Considered(n: Node, from: Addr, level: Byte) {
    !n.synchronizing && from in n.peers && level <= 253
  }

  /** The sender is a better source of time than the present one. */
  predicate Opens(n: Node, from: Addr, level: Byte) {
    Considered(n, from, level) && if Follows(n, from) then level < n.level else level + 1 < n.level
  }

  /** The present source of time is no longer better than the node. */
  predicate Abandons(n: Node, from: Addr, level: Byte) {
    Considered(n, from, level) && Follows(n, from) && n.level <= level
  }

  /** A SYNC_START opens an exchange exactly when Opens holds, and then asks the sender. */
  lemma SyncStartOpens(n: Node, start: int, from: Addr, level: Byte, timestamp: nat, r: Readings)
    requires r.From(start)
    ensures var o := OnSyncStart(n, start, from, level, timestamp, r);
            && (!n.synchronizing ==> (o.node.synchronizing <==> Opens(n, from, level)))
            && o.sends == if Opens(n, from, level) then [Send(from, DelayRequest, r.third)] else []
  {
  }

  /** What an opened exchange remembers; nothing else of the node changes, but a source that
      is still good is checked again in 20 s. */
  lemma ExchangeOpened(n: Node, start: int, from: Addr, level: Byte, timestamp: nat, r: Readings)
    requires r.From(start) && Opens(n, from, level)
    ensures var m := OnSyncStart(n, start, from, level, timestamp, r).node;
            && m.peerToSync == from && m.synchronizingLevel == level
            && m.T1 == timestamp && m.T2 == Natural(start, r.first) && m.T3 == Natural(start, r.third)
            && m.waitingForDelayResponse == r.fourth + 5 * SECONDS
            && m.nextSyncCheck == (if Follows(n, from) then r.second + 20 * SECONDS else n.nextSyncCheck)
            && m == n.(synchronizing := true, synchronizingLevel := m.synchronizingLevel, peerToSync := m.peerToSync,
                       T1 := m.T1, T2 := m.T2, T3 := m.T3, nextSyncCheck := m.nextSyncCheck,
                       waitingForDelayResponse := m.waitingForDelayResponse)
  {
  }

  /** Any other SYNC_START changes nothing, except that it costs the node its level when its
      source is no longer better than the node itself. */
  lemma SyncStartRefused(n: Node, start: int, from: Addr, level: Byte, timestamp: nat, r: Readings)
    requires r.From(start) && !Opens(n, from, level)
    ensures OnSyncStart(n, start, from, level, timestamp, r).node ==
            if Abandons(n, from, level) then n.(level := 255, offset := 0) else n
  {
  }

  // ----- DELAY_REQUEST

  /** Asked in the last round of SYNC_START and no later than 5 ms after it. */
  predicate InTime(n: Node, start: int, from: Addr, received: int)
    requires start <= received
  {
    from in n.asked && Natural(start, received) <= n.lastSyncStart + 5
  }

  /** A request is answered exactly when it is in time, with the level and the synchronized
      clock, and changes nothing. */
  lemma RequestAnswered(n: Node, start: int, from: Addr, t4: int, received: int)
    requires start <= t4 && start <= received
    ensures var o := OnDelayRequest(n, start, from, t4, received);
            && o.node == n
            && (InTime(n, start, from, received) ==>
                  |o.sends| == 1 && o.sends[0].to == from && o.sends[0].at == t4
                  && o.sends[0].msg == DelayResponse(n.level, ClockOf(n, start, t4)))
            && (!InTime(n, start, from, received) ==> o.sends == [])
  {
  }

  /** get_clock: natural time less the offset, but never negative, and natural time alone at
      level 255. */
  function ClockOf(n: Node, start: int, t: int): (clock: nat)
    requires start <= t
    ensures clock == ReadClock(n, start, t)
  {
    var natural := Natural(start, t);
    if n.level == 255 then natural
    else if n.offset <= natural then natural - n.offset
    else 0
  }

  // ----- DELAY_RESPONSE

  predicate Completes(n: Node, from: Addr, level: Byte, timestamp: nat) {
    n.synchronizing && n.peerToSync == from && n.synchronizingLevel == level && n.T1 <= timestamp
  }

  /** A response closes the exchange exactly when it is the peer's, of the level announced and
      not before T1.  The node then has the next level, half of T2 - T1 + T3 - T4 rounded
      toward zero as its offset, and the sender as its source, to be checked in 20 s; a node
      others could not synchronize to before may send SYNC_START at once. */
  lemma ResponseCompletes(n: Node, from: Addr, level: Byte, timestamp: nat, r: Readings)
    ensures var o := OnDelayResponse(n, from, level, timestamp, r);
            && o.sends == [] && (!Completes(n, from, level, timestamp) ==> o.node == n)
    ensures Completes(n, from, level, timestamp) ==>
              var m := OnDelayResponse(n, from, level, timestamp, r).node;
              && !m.synchronizing && m.syncedPeer == Some(from) && m.T4 == timestamp
              && m.level == (if level == 255 then 0 else level + 1)
              && HalfTowardZero(m.offset, n.T2 - n.T1 + n.T3 - timestamp)
              && m.nextSyncCheck == r.second + 20 * SECONDS
              && m.nextSyncStart == (if n.level >= 254 && level < 253 then r.first else n.nextSyncStart)
              && m == n.(synchronizing := false, syncedPeer := m.syncedPeer, T4 := m.T4, level := m.level,
                         offset := m.offset, nextSyncCheck := m.nextSyncCheck, nextSyncStart := m.nextSyncStart)
  {
  }

  /** `half` is half of `x`, rounded toward zero. */
  predicate HalfTowardZero(half: int, x: int) {
    && (x >= 0 ==> 2 * half <= x < 2 * half + 2 && half >= 0)
    && (x <= 0 ==> 2 * half - 2 < x <= 2 * half && half <= 0)
  }

  // ----- LEADER

  /** LEADER 0 makes the node the leader and lets it wait 2 s; LEADER 255 stops a leader, which
      keeps its offset; nothing else has an effect. */
  lemma LeaderCommand(n: Node, argument: Byte, t: int)
    ensures var m := OnLeader(n, argument, t);
            && (argument == 0 ==> m.level == 0 && m.nextSyncStart == t + 2 * SECONDS)
            && (argument == 255 && n.level == 0 ==> m.level == 255)
            && (argument != 0 && !(argument == 255 && n.level == 0) ==> m.level == n.level)
            && (argument != 0 ==> m.nextSyncStart == n.nextSyncStart)
            && m == n.(level := m.level, nextSyncStart := m.nextSyncStart)
  {
  }

  // ----- Timers

  /** The source has been silent for too long. */
  predicate Loses(n: Node, check: int) {
    0 < n.level < 255 && n.nextSyncCheck < check
  }

  predicate StartsRound(n: Node, r: TimerReadings) {
    n.level <= 253 && !Loses(n, r.check) && n.nextSyncStart < r.compare
  }

  /** Level and offset are lost exactly when the source has been silent for too long. */
  lemma TimersLose(n: Node, start: int, r: TimerReadings)
    requires r.From(start, n)
    ensures var m := OnTimers(n, start, r).node;
            if Loses(n, r.check) then m.level == 255 && m.offset == 0 else m.level == n.level && m.offset == n.offset
  {
  }

  /** A round of SYNC_START begins exactly when one is due: one message for each peer, in the
      order of the list, each with the level and the clock at its own instant. */
  lemma TimersSend(n: Node, start: int, r: TimerReadings)
    requires r.From(start, n)
    ensures var o := OnTimers(n, start, r);
            && |o.sends| == (if StartsRound(n, r) then |n.peers| else 0)
            && forall k :: 0 <= k < |o.sends| ==>
                 && o.sends[k].to == n.peers[k] && o.sends[k].at == r.each[k]
                 && o.sends[k].msg == SyncStart(n.level, ClockOf(n, start, r.each[k]))
  {
  }

  /** A round remembers whom it asked and when, and the next one is due in 5 s; otherwise only
      level and offset can change. */
  lemma TimersRemember(n: Node, start: int, r: TimerReadings)
    requires r.From(start, n)
    ensures var m := OnTimers(n, start, r).node;
            && (StartsRound(n, r) ==>
                  && m.asked == (if n.peers == [] then n.asked else n.peers)
                  && m.lastSyncStart == Natural(start, r.last) && m.nextSyncStart == r.deadline + 5 * SECONDS)
            && (!StartsRound(n, r) ==>
                  m.asked == n.asked && m.lastSyncStart == n.lastSyncStart && m.nextSyncStart == n.nextSyncStart)
            && m == n.(level := m.level, offset := m.offset, asked := m.asked,
                       lastSyncStart := m.lastSyncStart, nextSyncStart := m.nextSyncStart)
  {
  }
}
