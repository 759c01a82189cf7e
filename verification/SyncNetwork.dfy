/** How close the clocks of a peer-time-sync network are.

    The runs are those of SyncExchange in which LEADER 0 is delivered to one node only, and
    not again once that node has been told to stop leading. */
module SyncNetwork {
  import opened Wrappers
  import opened Clock
  import opened SyncNode
  import opened SyncExchange

  predicate Enabled(P: Params, s: Net, a: Action)
    requires P.grain > 0
  {
    Possible(P, s, a) && (a.Command? && a.argument == LEADER ==> a.i == P.leader && !s.demoted)
  }

  /** A run with one leader. */
  ghost predicate IsRun(P: Params, states: seq<Net>, run: seq<Action>) {
    IsFreeRun(P, states, run) && forall k :: 0 <= k < |run| ==> Enabled(P, states[k], run[k])
  }

  // ----- The invariant

  ghost predicate Within(twice: int, slack: int) {
    -slack <= twice <= slack
  }

  /** How far a node's offset is from the leader's time, in nanoseconds. */
  function OffsetError(P: Params, i: Addr, n: Node): int
    requires P.leader in P.start && i in P.start
  {
    n.offset * NS_PER_MS - (P.LeaderStart() - P.start[i])
  }

  /** The open exchange of node i: the level is one the node may take, and T2 - T1 measures
      the offset up to one message delay and the accuracy of the upstream. */
  ghost predicate ExchangeOpen(P: Params, i: Addr, n: Node)
    requires P.leader in P.start && i in P.start
  {
    && n.synchronizingLevel <= 253 && n.synchronizingLevel < n.level
    && var x := 2 * ((n.T2 - n.T1) * NS_PER_MS - (P.LeaderStart() - P.start[i]));
       var slack := P.Slack(n.synchronizingLevel) + 4 * P.Error();
       -slack <= x <= 2 * P.maxDelay + slack
  }

  ghost predicate NodeOk(P: Params, i: Addr, n: Node, last: int)
    requires P.leader in P.start && i in P.start
  {
    && P.start[i] <= last
    && (n.level < UNSYNCHRONIZED ==>
          P.LeaderStart() <= last && Within(2 * OffsetError(P, i, n), P.Slack(n.level)))
    && (n.synchronizing ==> ExchangeOpen(P, i, n))
  }

  /** `timestamp`, read at instant `sent` by a node of the given level, is leader time up to
      the accuracy of that level. */
  ghost predicate GoodTimestamp(P: Params, level: Byte, timestamp: nat, sent: int)
    requires P.leader in P.start
  {
    && P.LeaderStart() <= sent
    && Within(2 * (timestamp * NS_PER_MS - (sent - P.LeaderStart())), P.Slack(level) + 2 * P.Error())
  }

  /** What a request or response in flight says about T3 of the client that has the exchange
      open. */
  ghost predicate GoodExchange(P: Params, n: Node, p: Packet)
    requires P.leader in P.start && Client(p) in P.start
  {
    match p.msg
    case SyncStart(_, _) => true
    case DelayRequest =>
      Within(n.T3 * NS_PER_MS - (p.sent - P.start[p.src]), P.Error())
    case DelayResponse(level, timestamp) =>
      level == n.synchronizingLevel ==>
        && P.LeaderStart() <= p.sent
        && var x := 2 * ((n.T3 - timestamp) * NS_PER_MS - (P.LeaderStart() - P.start[p.dst]));
           var slack := P.Slack(level) + 4 * P.Error();
           -(2 * P.maxDelay + slack) <= x <= slack
  }

  ghost predicate PacketOk(P: Params, nodes: map<Addr, Node>, p: Packet)
    requires P.leader in P.start && nodes.Keys == P.start.Keys
  {
    match p.msg
    case SyncStart(level, timestamp) => level < 254 && GoodTimestamp(P, level, timestamp, p.sent)
    case _ => Client(p) in nodes && GoodExchange(P, nodes[Client(p)], p)
  }

  ghost predicate Dormant(s: Net) {
    && s.flight == multiset{}
    && forall i :: i in s.nodes ==> s.nodes[i].level == UNSYNCHRONIZED && !s.nodes[i].synchronizing
  }

  ghost predicate LeaderOk(P: Params, s: Net)
    requires P.leader in s.nodes
  {
    !s.demoted ==>
      var n := s.nodes[P.leader];
      && n.offset == 0 && n.syncedPeer == None && !n.synchronizing
      && (n.level == LEADER || Dormant(s))
  }

  ghost predicate NodesOk(P: Params, s: Net) {
    && P.Valid() && s.nodes.Keys == s.last.Keys == P.start.Keys
    && forall i :: i in s.nodes ==> NodeOk(P, i, s.nodes[i], s.last[i])
  }

  ghost predicate PacketsOk(P: Params, nodes: map<Addr, Node>, flight: multiset<Packet>)
    requires P.leader in P.start && nodes.Keys == P.start.Keys
  {
    forall p :: p in flight ==> PacketOk(P, nodes, p)
  }

  ghost predicate Inv(P: Params, s: Net) {
    NodesOk(P, s) && PacketsOk(P, s.nodes, s.flight) && Discipline(s.nodes, s.flight) && LeaderOk(P, s)
  }

  // ----- What each handler does to the invariant of its own node

  /** What exchange messages in flight rely on. */
  predicate ExchangeKept(n: Node, m: Node) {
    n.synchronizing ==> m.synchronizing && m.synchronizingLevel == n.synchronizingLevel && m.T3 == n.T3
  }

  ghost predicate GoodSend(P: Params, x: Send)
    requires P.leader in P.start
  {
    x.msg.SyncStart? && x.msg.level < 254 && GoodTimestamp(P, x.msg.level, x.msg.timestamp, x.at)
  }

  /** The clock of a node of level below 255 is leader time, even when it clamps to zero. */
  lemma ClockAccuracy(P: Params, i: Addr, n: Node, last: int, t: int)
    requires P.Valid() && i in P.start && NodeOk(P, i, n, last) && last <= t && OnGrain(t, P.grain)
    requires n.level < UNSYNCHRONIZED
    ensures GoodTimestamp(P, n.level, ReadClock(n, P.start[i], t), t)
  {
    NaturalAccuracy(P.start[i], t, P.grain);
  }

  lemma SyncStartKeeps(P: Params, i: Addr, n: Node, last: int, p: Packet, r: Readings)
    requires P.Valid() && i in P.start && NodeOk(P, i, n, last) && r.From(last)
    requires OnGrain(r.first, P.grain) && OnGrain(r.third, P.grain) && p.sent <= r.first <= p.sent + P.maxDelay
    requires p.dst == i && p.msg.SyncStart? && GoodTimestamp(P, p.msg.level, p.msg.timestamp, p.sent)
    ensures var o := Receive(n, P.start[i], p, r);
            && NodeOk(P, i, o.node, r.fourth) && ExchangeKept(n, o.node)
            && (o.sends == [] ||
                (!n.synchronizing && o.sends == [Send(p.src, DelayRequest, r.third)]
                 && GoodExchange(P, o.node, Packet(i, p.src, DelayRequest, r.third))))
  {
    NaturalAccuracy(P.start[i], r.first, P.grain);
    NaturalAccuracy(P.start[i], r.third, P.grain);
  }

  lemma DelayRequestKeeps(P: Params, i: Addr, n: Node, last: int, client: Node, p: Packet, r: Readings)
    requires P.Valid() && i in P.start && NodeOk(P, i, n, last) && r.From(last) && p.src in P.start
    requires OnGrain(r.first, P.grain) && p.sent <= r.first <= p.sent + P.maxDelay
    requires p.dst == i && p.msg.DelayRequest? && GoodExchange(P, client, p)
    requires client.synchronizingLevel < UNSYNCHRONIZED
    ensures var o := Receive(n, P.start[i], p, r);
            && o.node == n && NodeOk(P, i, n, r.fourth)
            && (o.sends == [] ||
                exists level, timestamp ::
                  && o.sends == [Send(p.src, DelayResponse(level, timestamp), r.first)]
                  && GoodExchange(P, client, Packet(i, p.src, DelayResponse(level, timestamp), r.first)))
  {
    if n.level < UNSYNCHRONIZED {
      ClockAccuracy(P, i, n, last, r.first);
    }
  }

  /** The offset of a completed exchange is worse than the upstream's by at most one hop. */
  lemma NewOffset(T1: int, T2: int, T3: int, T4: int, ideal: int, delay: int, slack: int, error: int)
    requires -(slack + 4 * error) <= 2 * ((T2 - T1) * NS_PER_MS - ideal) <= 2 * delay + slack + 4 * error
    requires -(2 * delay + slack + 4 * error) <= 2 * ((T3 - T4) * NS_PER_MS - ideal) <= slack + 4 * error
    ensures Within(2 * (OffsetOf(T1, T2, T3, T4) * NS_PER_MS - ideal), slack + delay + NS_PER_MS + 4 * error)
  {
  }

  lemma SlackGrows(P: Params, level: Byte)
    requires level < 255
    ensures P.Slack(level + 1) == P.Slack(level) + P.Hop()
  {
  }

  lemma DelayResponseKeeps(P: Params, i: Addr, n: Node, last: int, p: Packet, r: Readings)
    requires P.Valid() && i in P.start && NodeOk(P, i, n, last) && r.From(last)
    requires p.sent <= r.first && p.dst == i && p.msg.DelayResponse? && GoodExchange(P, n, p)
    ensures var o := Receive(n, P.start[i], p, r); NodeOk(P, i, o.node, r.fourth) && o.sends == []
  {
    var m := p.msg;
    if Accepts(n, p.src, m.level, m.timestamp) {
      NewOffset(n.T1, n.T2, n.T3, m.timestamp, P.LeaderStart() - P.start[i], P.maxDelay, P.Slack(m.level), P.Error());
      SlackGrows(P, m.level);
    }
  }

  lemma TimersKeep(P: Params, i: Addr, n: Node, last: int, r: TimerReadings)
    requires P.Valid() && i in P.start && NodeOk(P, i, n, last) && r.From(last, n)
    requires forall k :: 0 <= k < |r.each| ==> OnGrain(r.each[k], P.grain)
    ensures var o := OnTimers(n, P.start[i], r);
            && NodeOk(P, i, o.node, r.deadline) && ExchangeKept(n, o.node)
            && forall k :: 0 <= k < |o.sends| ==> GoodSend(P, o.sends[k])
  {
    var n1 := CheckUpstream(n, r.check);
    if n1.level < UNSYNCHRONIZED - 1 {
      forall k | 0 <= k < |r.each|
        ensures GoodTimestamp(P, n1.level, ReadClock(n1, P.start[i], r.each[k]), r.each[k])
      {
        ClockAccuracy(P, i, n1, last, r.each[k]);
      }
    }
  }

  // ----- From one node to the network

  lemma NodesMove(P: Params, s: Net, i: Addr, o: Outcome, t: int, used: multiset<Packet>)
    requires NodesOk(P, s) && i in s.nodes && NodeOk(P, i, o.node, t)
    ensures NodesOk(P, Move(s, i, o, t, used))
  {
  }

  /** Messages left in flight stay good when node i changes. */
  lemma PacketsLeft(P: Params, nodes: map<Addr, Node>, flight: multiset<Packet>, left: multiset<Packet>, i: Addr,
                    m: Node)
    requires P.leader in P.start && nodes.Keys == P.start.Keys && i in nodes
    requires PacketsOk(P, nodes, flight) && Discipline(nodes, flight) && Among(left, flight)
    requires NoneOf(left, i) || ExchangeKept(nodes[i], m)
    ensures PacketsOk(P, nodes[i := m], left)
  {
    forall p | p in left
      ensures PacketOk(P, nodes[i := m], p)
    {
      assert PacketOk(P, nodes, p) && Belongs(nodes, p);
    }
  }

  lemma PacketsAdded(P: Params, nodes: map<Addr, Node>, left: multiset<Packet>, i: Addr, sends: seq<Send>)
    requires P.leader in P.start && nodes.Keys == P.start.Keys && PacketsOk(P, nodes, left)
    requires forall k :: 0 <= k < |sends| ==> PacketOk(P, nodes, Packet(i, sends[k].to, sends[k].msg, sends[k].at))
    ensures PacketsOk(P, nodes, left + PacketsOf(i, sends))
  {
    forall p | p in left + PacketsOf(i, sends)
      ensures PacketOk(P, nodes, p)
    {
      PacketsSent(i, sends, p);
    }
  }

  lemma LeaderStays(P: Params, s: Net, i: Addr, o: Outcome, t: int, used: multiset<Packet>)
    requires P.leader in s.nodes && LeaderOk(P, s) && i in s.nodes
    requires !s.demoted && i == P.leader ==>
               && o.node.level == s.nodes[i].level && o.node.offset == 0 && o.node.syncedPeer == None
               && !o.node.synchronizing
    requires Dormant(s) ==> o.sends == [] && !o.node.synchronizing && o.node.level == UNSYNCHRONIZED
    ensures LeaderOk(P, Move(s, i, o, t, used))
  {
    var r := Move(s, i, o, t, used);
    if Dormant(s) {
      assert PacketsOf(i, o.sends) == multiset{};
      assert Dormant(r);
    }
  }

  /** A node that leads and never synchronized. */
  predicate Leads(n: Node) {
    n.level == LEADER && n.offset == 0 && n.syncedPeer == None && !n.synchronizing
  }

  /** A leader that never synchronized is moved from level 0 by no message and no timer, and
      never begins to synchronize. */
  lemma MessageKeepsLeader(n: Node, start: int, p: Packet, r: Readings)
    requires r.From(start) && Leads(n)
    ensures Leads(Receive(n, start, p, r).node)
  {
  }

  lemma TimersKeepLeader(n: Node, start: int, r: TimerReadings)
    requires r.From(start, n) && Leads(n)
    ensures Leads(OnTimers(n, start, r).node)
  {
  }

  lemma LeaderAfterDelivery(P: Params, s: Net, p: Packet, r: Readings)
    requires P.leader in s.nodes && LeaderOk(P, s) && p in s.flight && p.dst in s.nodes && p.dst in P.start
    requires r.From(P.start[p.dst])
    ensures LeaderOk(P, Move(s, p.dst, Receive(s.nodes[p.dst], P.start[p.dst], p, r), r.fourth, multiset{p}))
  {
    var o := Receive(s.nodes[p.dst], P.start[p.dst], p, r);
    assert !Dormant(s);
    if !s.demoted && p.dst == P.leader {
      MessageKeepsLeader(s.nodes[p.dst], P.start[p.dst], p, r);
    }
    LeaderStays(P, s, p.dst, o, r.fourth, multiset{p});
  }

  // ----- Deliveries

  /** What is left to show of a delivery: its node and the messages then in flight. */
  ghost predicate DeliveryOk(P: Params, s: Net, p: Packet, r: Readings)
    requires P.Valid() && s.nodes.Keys == P.start.Keys && p.dst in s.nodes && r.From(P.start[p.dst])
  {
    var o := Receive(s.nodes[p.dst], P.start[p.dst], p, r);
    && NodeOk(P, p.dst, o.node, r.fourth)
    && PacketsOk(P, s.nodes[p.dst := o.node], s.flight - multiset{p} + PacketsOf(p.dst, o.sends))
  }

  ghost predicate BeforeDelivery(P: Params, s: Net, p: Packet, r: Readings) {
    && NodesOk(P, s) && PacketsOk(P, s.nodes, s.flight) && Discipline(s.nodes, s.flight)
    && p in s.flight && p.dst in s.nodes && r.From(s.last[p.dst]) && s.last[p.dst] >= P.start[p.dst]
    && OnGrain(r.first, P.grain) && OnGrain(r.third, P.grain) && p.sent <= r.first <= p.sent + P.maxDelay
  }

  lemma SyncStartDelivered(P: Params, s: Net, p: Packet, r: Readings)
    requires BeforeDelivery(P, s, p, r) && p.msg.SyncStart?
    ensures DeliveryOk(P, s, p, r)
  {
    var i, n, left := p.dst, s.nodes[p.dst], s.flight - multiset{p};
    var o := Receive(n, P.start[i], p, r);
    assert NodeOk(P, i, n, s.last[i]) && PacketOk(P, s.nodes, p);
    SyncStartKeeps(P, i, n, s.last[i], p, r);
    TakenAlone(s.nodes, s.flight, p);
    PacketsLeft(P, s.nodes, s.flight, left, i, o.node);
    PacketsAdded(P, s.nodes[i := o.node], left, i, o.sends);
  }

  lemma DelayRequestDelivered(P: Params, s: Net, p: Packet, r: Readings)
    requires BeforeDelivery(P, s, p, r) && p.msg.DelayRequest?
    ensures DeliveryOk(P, s, p, r)
  {
    var i, n, left := p.dst, s.nodes[p.dst], s.flight - multiset{p};
    var o := Receive(n, P.start[i], p, r);
    assert NodeOk(P, i, n, s.last[i]) && PacketOk(P, s.nodes, p) && Belongs(s.nodes, p);
    assert NodeOk(P, p.src, s.nodes[p.src], s.last[p.src]);
    DelayRequestKeeps(P, i, n, s.last[i], s.nodes[p.src], p, r);
    assert s.nodes[i := n] == s.nodes;
    TakenAlone(s.nodes, s.flight, p);
    PacketsLeft(P, s.nodes, s.flight, left, i, n);
    PacketsAdded(P, s.nodes, left, i, o.sends);
  }

  lemma DelayResponseDelivered(P: Params, s: Net, p: Packet, r: Readings)
    requires BeforeDelivery(P, s, p, r) && p.msg.DelayResponse?
    ensures DeliveryOk(P, s, p, r)
  {
    var i, n, left := p.dst, s.nodes[p.dst], s.flight - multiset{p};
    var o := Receive(n, P.start[i], p, r);
    assert NodeOk(P, i, n, s.last[i]) && PacketOk(P, s.nodes, p);
    DelayResponseKeeps(P, i, n, s.last[i], p, r);
    TakenAlone(s.nodes, s.flight, p);
    PacketsLeft(P, s.nodes, s.flight, left, i, o.node);
    PacketsAdded(P, s.nodes[i := o.node], left, i, o.sends);
  }

  lemma DeliverKeeps(P: Params, s: Net, p: Packet, r: Readings)
    requires Inv(P, s) && Enabled(P, s, Deliver(p, r))
    ensures Inv(P, Apply(P, s, Deliver(p, r)))
  {
    match p.msg {
      case SyncStart(_, _) => SyncStartDelivered(P, s, p, r);
      case DelayRequest => DelayRequestDelivered(P, s, p, r);
      case DelayResponse(_, _) => DelayResponseDelivered(P, s, p, r);
    }
    var o := Receive(s.nodes[p.dst], P.start[p.dst], p, r);
    NodesMove(P, s, p.dst, o, r.fourth, multiset{p});
    LeaderAfterDelivery(P, s, p, r);
    DeliverDiscipline(s.nodes, s.flight, p, P.start[p.dst], r);
  }

  // ----- The other actions

  lemma TimersStepKeeps(P: Params, s: Net, i: Addr, r: TimerReadings)
    requires Inv(P, s) && Enabled(P, s, Timers(i, r))
    ensures Inv(P, Apply(P, s, Timers(i, r)))
  {
    var o := OnTimers(s.nodes[i], P.start[i], r);
    assert NodeOk(P, i, s.nodes[i], s.last[i]);
    TimersKeep(P, i, s.nodes[i], s.last[i], r);
    NodesMove(P, s, i, o, r.deadline, multiset{});
    PacketsLeft(P, s.nodes, s.flight, s.flight - multiset{}, i, o.node);
    PacketsAdded(P, s.nodes[i := o.node], s.flight - multiset{}, i, o.sends);
    TimersLeader(P, s, i, r);
    StepDiscipline(P, s, Timers(i, r));
  }

  lemma TimersLeader(P: Params, s: Net, i: Addr, r: TimerReadings)
    requires P.leader in s.nodes && LeaderOk(P, s) && i in s.nodes && i in P.start && r.From(P.start[i], s.nodes[i])
    ensures LeaderOk(P, Move(s, i, OnTimers(s.nodes[i], P.start[i], r), r.deadline, multiset{}))
  {
    LeaderStays(P, s, i, OnTimers(s.nodes[i], P.start[i], r), r.deadline, multiset{});
  }

  lemma LoseKeeps(P: Params, s: Net, p: Packet)
    requires Inv(P, s) && Enabled(P, s, Lose(p))
    ensures Inv(P, Apply(P, s, Lose(p)))
  {
    StepDiscipline(P, s, Lose(p));
    assert forall q :: q in s.flight - multiset{p} ==> q in s.flight;
  }

  lemma ChangePeersKeeps(P: Params, s: Net, i: Addr, peers: seq<Addr>)
    requires Inv(P, s) && Enabled(P, s, ChangePeers(i, peers))
    ensures Inv(P, Apply(P, s, ChangePeers(i, peers)))
  {
    var m := s.nodes[i].(peers := peers);
    assert NodeOk(P, i, s.nodes[i], s.last[i]);
    assert NodeOk(P, i, m, s.last[i]);
    PacketsLeft(P, s.nodes, s.flight, s.flight, i, m);
    StepDiscipline(P, s, ChangePeers(i, peers));
  }

  lemma CommandNode(P: Params, i: Addr, n: Node, last: int, argument: Byte, t: int)
    requires P.Valid() && i in P.start && NodeOk(P, i, n, last) && last <= t
    requires argument == LEADER ==> i == P.leader && n.offset == 0 && !n.synchronizing
    ensures NodeOk(P, i, OnLeader(n, argument, t), t) && ExchangeKept(n, OnLeader(n, argument, t))
  {
  }

  lemma CommandLeader(P: Params, s: Net, i: Addr, argument: Byte, t: int)
    requires P.grain > 0 && P.leader in s.nodes && LeaderOk(P, s) && Enabled(P, s, Command(i, argument, t))
    ensures LeaderOk(P, Apply(P, s, Command(i, argument, t)))
  {
    assert PacketsOf(i, []) == multiset{};
  }

  lemma CommandKeeps(P: Params, s: Net, i: Addr, argument: Byte, t: int)
    requires Inv(P, s) && Enabled(P, s, Command(i, argument, t))
    ensures Inv(P, Apply(P, s, Command(i, argument, t)))
  {
    var m := OnLeader(s.nodes[i], argument, t);
    assert NodeOk(P, i, s.nodes[i], s.last[i]);
    CommandNode(P, i, s.nodes[i], s.last[i], argument, t);
    NodesMove(P, s, i, Outcome(m, []), t, multiset{});
    PacketsLeft(P, s.nodes, s.flight, s.flight - multiset{}, i, m);
    PacketsAdded(P, s.nodes[i := m], s.flight - multiset{}, i, []);
    CommandLeader(P, s, i, argument, t);
    StepDiscipline(P, s, Command(i, argument, t));
  }

  lemma StepKeeps(P: Params, s: Net, a: Action)
    requires Inv(P, s) && Enabled(P, s, a)
    ensures Inv(P, Apply(P, s, a))
  {
    match a {
      case Deliver(p, r) => DeliverKeeps(P, s, p, r);
      case Lose(p) => LoseKeeps(P, s, p);
      case Timers(i, r) => TimersStepKeeps(P, s, i, r);
      case Command(i, argument, t) => CommandKeeps(P, s, i, argument, t);
      case ChangePeers(i, peers) => ChangePeersKeeps(P, s, i, peers);
    }
  }

  lemma {:induction false} RunKeeps(P: Params, states: seq<Net>, run: seq<Action>)
    requires IsRun(P, states, run)
    ensures Inv(P, states[|run|])
  {
    if run == [] {
      forall i | i in states[0].nodes
        ensures NodeOk(P, i, states[0].nodes[i], states[0].last[i])
      {
        assert Initial(states[0].nodes[i]);
      }
    } else {
      var k := |run| - 1;
      assert IsRun(P, states[..|run|], run[..k]);
      RunKeeps(P, states[..|run|], run[..k]);
      StepKeeps(P, states[k], run[k]);
    }
  }

  // ----- Main results

  /** Accuracy.  In every reachable state and at every later instant, the clock of a node of
      level l < 255 is within l * (maxDelay + 1 ms + 4E) / 2 + 2E of the natural clock of
      the leader, where E is the error of one reading; in nanoseconds and doubled. */
  lemma ClocksAgree(P: Params, states: seq<Net>, run: seq<Action>, i: Addr, t: int)
    requires IsRun(P, states, run)
    requires var s := states[|run|];
             && i in s.nodes && s.nodes[i].level < UNSYNCHRONIZED
             && i in s.last && s.last[i] <= t && OnGrain(t, P.grain)
    ensures i in P.start && P.start[i] <= t && P.leader in P.start && P.LeaderStart() <= t
    ensures var n := states[|run|].nodes[i];
            var error := ReadClock(n, P.start[i], t) - Natural(P.LeaderStart(), t);
            Within(2 * NS_PER_MS * error, n.level * (P.maxDelay + NS_PER_MS + 4 * P.Error()) + 4 * P.Error())
  {
    RunKeeps(P, states, run);
    var s := states[|run|];
    assert NodeOk(P, i, s.nodes[i], s.last[i]);
    ClockAccuracy(P, i, s.nodes[i], s.last[i], t);
    NaturalAccuracy(P.LeaderStart(), t, P.grain);
    assert P.Slack(s.nodes[i].level) == s.nodes[i].level * (P.maxDelay + NS_PER_MS + 4 * P.Error());
  }

  /** On a clock of whole milliseconds with delays of at most D milliseconds, a node of
      level l is within l * (D + 1) / 2 milliseconds of the leader. */
  lemma ClocksAgreeInMilliseconds(P: Params, states: seq<Net>, run: seq<Action>, i: Addr, t: int, D: nat)
    requires IsRun(P, states, run) && P.grain % NS_PER_MS == 0 && P.maxDelay == D * NS_PER_MS
    requires var s := states[|run|];
             && i in s.nodes && s.nodes[i].level < UNSYNCHRONIZED
             && i in s.last && s.last[i] <= t && OnGrain(t, P.grain)
    ensures i in P.start && P.start[i] <= t && P.leader in P.start && P.LeaderStart() <= t
    ensures var n := states[|run|].nodes[i];
            Within(2 * (ReadClock(n, P.start[i], t) - Natural(P.LeaderStart(), t)), n.level * (D + 1))
  {
    ClocksAgree(P, states, run, i, t);
    InMilliseconds(states[|run|].nodes[i].level, D);
  }

  lemma InMilliseconds(level: nat, D: nat)
    ensures level * (D * NS_PER_MS + NS_PER_MS) == (level * (D + 1)) * NS_PER_MS
  {
  }

  /** While it has not been told to stop, the leader keeps level 0 and offset 0 once it has
      them, whatever the other nodes send. */
  lemma LeaderKeepsLeading(P: Params, states: seq<Net>, run: seq<Action>, a: Action)
    requires IsRun(P, states, run) && Enabled(P, states[|run|], a)
    requires var s := states[|run|]; !s.demoted && P.leader in s.nodes && s.nodes[P.leader].level == LEADER
    ensures var r := Apply(P, states[|run|], a);
            && (r.nodes[P.leader].level == LEADER <==> !r.demoted)
            && r.nodes[P.leader].offset == 0
  {
    RunKeeps(P, states, run);
    LeaderKeepsLeadingFrom(P, states[|run|], a);
  }

  lemma LeaderKeepsLeadingFrom(P: Params, s: Net, a: Action)
    requires Inv(P, s) && Enabled(P, s, a) && !s.demoted && s.nodes[P.leader].level == LEADER
    ensures var r := Apply(P, s, a);
            && (r.nodes[P.leader].level == LEADER <==> !r.demoted)
            && r.nodes[P.leader].offset == 0
  {
    var n := s.nodes[P.leader];
    match a {
      case Deliver(p, r) =>
        if p.dst == P.leader {
          MessageKeepsLeader(n, P.start[P.leader], p, r);
        }
      case Timers(i, r) =>
        if i == P.leader {
          TimersKeepLeader(n, P.start[i], r);
        }
      case _ =>
    }
  }

  // ----- Why LEADER 0 must not reach a node that has synchronized before

  /** A leader loses its level to a SYNC_START exactly when it has no exchange open and the
      message is an acceptable one from the peer it last synchronized to. */
  lemma LeaderDemotedBySyncStart(n: Node, start: int, from: Addr, level: Byte, timestamp: nat, r: Readings)
    requires n.level == LEADER && r.From(start)
    ensures OnSyncStart(n, start, from, level, timestamp, r).node.level != LEADER
            <==> !n.synchronizing && SyncStartOk(n, from, level) && n.syncedPeer == Some(from)
  {
  }

  /** A leader loses its level to a DELAY_RESPONSE exactly when an exchange is open and the
      response completes it, except that level 255 would wrap around. */
  lemma LeaderDemotedByOpenExchange(n: Node, from: Addr, level: Byte, timestamp: nat, r: Readings)
    requires n.level == LEADER
    ensures OnDelayResponse(n, from, level, timestamp, r).node.level != LEADER
            <==> Accepts(n, from, level, timestamp) && level != 255
  {
  }
}
