/** A synchronization from its first message to its last.  In any run in which a round of
    SYNC_START reaches a node that considers it, the node's request comes back to the sender
    in time and the response to the node, the node ends up one level below the sender, with
    the sender as its source, whatever the other nodes and the network do meanwhile. */
module Handshake {
  import opened Wrappers
  import opened Clock
  import opened SyncNode
  import opened SyncExchange
  import opened SyncEffects

  // ----- What does not concern a node leaves it alone

  predicate Concerns(a: Action, i: Addr) {
    match a
    case Deliver(p, _) => p.dst == i
    case Lose(_) => false
    case Timers(j, _) => j == i
    case Command(j, _, _) => j == i
    case ChangePeers(j, _) => j == i
  }

  lemma Unconcerned(P: Params, s: Net, a: Action, i: Addr)
    requires P.grain > 0 && Possible(P, s, a) && !Concerns(a, i) && i in s.nodes && i in s.last
    ensures var r := Apply(P, s, a);
            i in r.nodes && i in r.last && r.nodes[i] == s.nodes[i] && r.last[i] == s.last[i]
  {
  }

  ghost predicate LeftAlone(run: seq<Action>, i: Addr, since: nat, until: nat) {
    until <= |run| && forall k :: since <= k < until ==> !Concerns(run[k], i)
  }

  lemma {:induction false} StaysTheSame(P: Params, states: seq<Net>, run: seq<Action>, i: Addr, since: nat, until: nat)
    requires IsFreeRun(P, states, run) && since <= until && LeftAlone(run, i, since, until)
    requires i in states[since].nodes && i in states[since].last
    ensures var s := states[until];
            && i in s.nodes && s.nodes[i] == states[since].nodes[i]
            && i in s.last && s.last[i] == states[since].last[i]
    decreases until
  {
    if since < until {
      StaysTheSame(P, states, run, i, since, until - 1);
      Unconcerned(P, states[until - 1], run[until - 1], i);
    }
  }

  lemma SentNow(P: Params, s: Net, a: Action, i: Addr, o: Outcome, k: nat)
    requires P.grain > 0 && Possible(P, s, a) && k < |o.sends|
    requires exists t, used :: Apply(P, s, a) == Move(s, i, o, t, used)
    ensures Packet(i, o.sends[k].to, o.sends[k].msg, o.sends[k].at) in Apply(P, s, a).flight
  {
    PacketsSent(i, o.sends, Packet(i, o.sends[k].to, o.sends[k].msg, o.sends[k].at));
  }

  // ----- The four steps

  /** Step h: the timers of `server` start a round; the message to its peer number `place`. */
  ghost predicate RoundStarts(P: Params, states: seq<Net>, run: seq<Action>, h: nat, server: Addr, place: nat)
    requires IsFreeRun(P, states, run)
  {
    && h < |run| && run[h].Timers? && run[h].i == server
    && var n := states[h].nodes[server]; place < |n.peers| && StartsRound(n, run[h].readings)
  }

  function StartMessage(P: Params, n: Node, server: Addr, r: TimerReadings, place: nat): Packet
    requires server in P.start && r.From(P.start[server], n) && place < |n.peers|
  {
    Packet(server, n.peers[place], SyncStart(n.level, ClockOf(n, P.start[server], r.each[place])), r.each[place])
  }

  lemma RoundSends(P: Params, states: seq<Net>, run: seq<Action>, h: nat, server: Addr, place: nat)
    requires IsFreeRun(P, states, run) && RoundStarts(P, states, run, h, server, place)
    ensures var n, r := states[h].nodes[server], run[h].readings;
            && server in P.start && r.From(P.start[server], n)
            && StartMessage(P, n, server, r, place) in states[h + 1].flight
            && server in states[h + 1].nodes && server in states[h + 1].last && states[h + 1].last[server] == r.deadline
            && var m := states[h + 1].nodes[server];
            && m.level == n.level && m.offset == n.offset && m.asked == n.peers
            && m.lastSyncStart == Natural(P.start[server], r.last)
  {
    var n, r := states[h].nodes[server], run[h].readings;
    TimersSend(n, P.start[server], r);
    TimersRemember(n, P.start[server], r);
    TimersLose(n, P.start[server], r);
    var o := OnTimers(n, P.start[server], r);
    assert states[h + 1] == Move(states[h], server, o, r.deadline, multiset{});
    SentNow(P, states[h], run[h], server, o, place);
  }

  /** Step i: the message reaches a node that opens an exchange. */
  lemma StartReceived(P: Params, states: seq<Net>, run: seq<Action>, i: nat, p: Packet, r: Readings)
    requires IsFreeRun(P, states, run) && i < |run| && run[i] == Deliver(p, r) && p.msg.SyncStart?
    requires Opens(states[i].nodes[p.dst], p.src, p.msg.level)
    ensures p.dst in P.start && r.From(P.start[p.dst])
    ensures var s, start := states[i + 1], P.start[p.dst];
            && Packet(p.dst, p.src, DelayRequest, r.third) in s.flight
            && p.dst in s.nodes && p.dst in s.last
            && var m := s.nodes[p.dst];
            && m.synchronizing && m.peerToSync == p.src && m.synchronizingLevel == p.msg.level
            && m.T1 == p.msg.timestamp && m.T2 == Natural(start, r.first) && m.T3 == Natural(start, r.third)
  {
    var n, start := states[i].nodes[p.dst], P.start[p.dst];
    SyncStartOpens(n, start, p.src, p.msg.level, p.msg.timestamp, r);
    ExchangeOpened(n, start, p.src, p.msg.level, p.msg.timestamp, r);
    var o := Receive(n, start, p, r);
    assert states[i + 1] == Move(states[i], p.dst, o, r.fourth, multiset{p});
    SentNow(P, states[i], run[i], p.dst, o, 0);
  }

  /** Step j: the request reaches the sender in time. */
  lemma RequestReceived(P: Params, states: seq<Net>, run: seq<Action>, j: nat, p: Packet, r: Readings)
    requires IsFreeRun(P, states, run) && j < |run| && run[j] == Deliver(p, r) && p.msg.DelayRequest?
    requires p.dst in P.start && r.From(P.start[p.dst])
    requires InTime(states[j].nodes[p.dst], P.start[p.dst], p.src, r.second)
    ensures var n := states[j].nodes[p.dst];
            Packet(p.dst, p.src, DelayResponse(n.level, ClockOf(n, P.start[p.dst], r.first)), r.first)
            in states[j + 1].flight
  {
    var n, start := states[j].nodes[p.dst], P.start[p.dst];
    RequestAnswered(n, start, p.src, r.first, r.second);
    var o := Receive(n, start, p, r);
    assert states[j + 1] == Move(states[j], p.dst, o, r.fourth, multiset{p});
    SentNow(P, states[j], run[j], p.dst, o, 0);
  }

  /** Step k: the response closes the exchange. */
  lemma ResponseReceived(P: Params, states: seq<Net>, run: seq<Action>, k: nat, p: Packet, r: Readings)
    requires IsFreeRun(P, states, run) && k < |run| && run[k] == Deliver(p, r) && p.msg.DelayResponse?
    requires p.dst in states[k].nodes && Completes(states[k].nodes[p.dst], p.src, p.msg.level, p.msg.timestamp)
    requires p.msg.level < 255
    ensures var n := states[k].nodes[p.dst];
            && p.dst in states[k + 1].nodes
            && var m := states[k + 1].nodes[p.dst];
            && !m.synchronizing && m.syncedPeer == Some(p.src) && m.level == p.msg.level + 1
            && HalfTowardZero(m.offset, n.T2 - n.T1 + n.T3 - p.msg.timestamp)
            && m.nextSyncCheck == r.second + 20 * SECONDS
  {
    ResponseCompletes(states[k].nodes[p.dst], p.src, p.msg.level, p.msg.timestamp, r);
  }

  /** The clock of a node that keeps level and offset never runs backwards. */
  lemma ClockAdvances(n: Node, m: Node, start: int, t: int, u: int)
    requires m.level == n.level && m.offset == n.offset && start <= t <= u
    ensures ClockOf(n, start, t) <= ClockOf(m, start, u)
  {
    NaturalMonotone(start, t, u);
  }

  // ----- The whole exchange

  /** The four steps h < i < j < k of one exchange between `server` and `client`, with nothing
      else happening to the server before it has answered or to the client before the answer. */
  datatype Steps = Steps(h: nat, i: nat, j: nat, k: nat)

  ghost predicate Happens(P: Params, states: seq<Net>, run: seq<Action>, at: Steps, server: Addr, place: nat)
    requires IsFreeRun(P, states, run)
  {
    && at.h < at.i < at.j < at.k < |run|
    && RoundStarts(P, states, run, at.h, server, place)
    && server in states[at.h].nodes && server in P.start
    && run[at.h].readings.From(P.start[server], states[at.h].nodes[server])
    && run[at.i].Deliver? && run[at.j].Deliver? && run[at.k].Deliver?
    && var n, r, client := states[at.h].nodes[server], run[at.h].readings, states[at.h].nodes[server].peers[place];
    && run[at.i].packet == StartMessage(P, n, server, r, place)
    && client in states[at.i].nodes && Opens(states[at.i].nodes[client], server, n.level)
    && run[at.j].packet == Packet(client, server, DelayRequest, run[at.i].r.third)
    && run[at.j].r.From(P.start[server])
    && Natural(P.start[server], run[at.j].r.second) <= Natural(P.start[server], r.last) + 5
    && run[at.k].packet ==
       Packet(server, client, DelayResponse(n.level, ClockOf(n, P.start[server], run[at.j].r.first)), run[at.j].r.first)
    && LeftAlone(run, server, at.h + 1, at.j) && LeftAlone(run, client, at.i + 1, at.k)
  }

  /** Progress.  The messages of such an exchange are sent, and when it is over the client has
      the level after the server's, the server as its source, and as its offset half of
      T2 - T1 + T3 - T4, with T1 and T4 read from the server's clock, T2 and T3 from its own. */
  lemma ExchangeSucceeds(P: Params, states: seq<Net>, run: seq<Action>, at: Steps, server: Addr, place: nat)
    requires IsFreeRun(P, states, run) && Happens(P, states, run, at, server, place)
    ensures run[at.i].packet in states[at.h + 1].flight
    ensures run[at.j].packet in states[at.i + 1].flight
    ensures run[at.k].packet in states[at.j + 1].flight
    ensures var n, r, client := states[at.h].nodes[server], run[at.h].readings, states[at.h].nodes[server].peers[place];
            && client in P.start && client in states[at.k + 1].nodes
            && run[at.i].r.From(P.start[client])
            && var m := states[at.k + 1].nodes[client];
            && m.level == n.level + 1 && m.syncedPeer == Some(server) && !m.synchronizing
            && m.nextSyncCheck == run[at.k].r.second + 20 * SECONDS
            && HalfTowardZero(m.offset,
                              Natural(P.start[client], run[at.i].r.first) - ClockOf(n, P.start[server], r.each[place])
                              + Natural(P.start[client], run[at.i].r.third)
                              - ClockOf(n, P.start[server], run[at.j].r.first))
  {
    var n, r, client := states[at.h].nodes[server], run[at.h].readings, states[at.h].nodes[server].peers[place];
    RoundSends(P, states, run, at.h, server, place);
    StartReceived(P, states, run, at.i, run[at.i].packet, run[at.i].r);
    StaysTheSame(P, states, run, server, at.h + 1, at.j);
    assert Possible(P, states[at.j], run[at.j]);
    ClockAdvances(n, states[at.j].nodes[server], P.start[server], r.each[place], run[at.j].r.first);
    RequestReceived(P, states, run, at.j, run[at.j].packet, run[at.j].r);
    StaysTheSame(P, states, run, client, at.i + 1, at.k);
    ResponseReceived(P, states, run, at.k, run[at.k].packet, run[at.k].r);
  }
}
