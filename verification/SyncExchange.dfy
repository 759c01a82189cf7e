/** Any number of peer-time-sync nodes and an unreliable network, and what needs no assumption
    on who is told to lead: one open exchange per node, and levels that never wrap.

    The network may lose and reorder messages and delivers each at most once, at most
    `maxDelay` nanoseconds after the sender read its clock.  Only the instants seen by one
    node are ordered; there is no global schedule.  All instants at which a clock is read
    for a message are multiples of `grain` nanoseconds: grain 1 is the real clock, a grain of
    whole milliseconds makes every reading exact. */
module SyncExchange {
  import opened Wrappers
  import opened Clock
  import opened SyncNode

  datatype Packet = Packet(src: Addr, dst: Addr, msg: Msg, sent: int)

  datatype Params = Params(start: map<Addr, int>, leader: Addr, maxDelay: nat, grain: int) {
    ghost predicate Valid() {
      && grain > 0 && leader in start
      && forall i :: i in start ==> OnGrain(start[i], grain)
    }

    function Error(): int {
      ReadingError(grain)
    }

    /** Twice the error that one more hop can add, in nanoseconds. */
    function Hop(): nat {
      maxDelay + NS_PER_MS + 4 * Error()
    }

    function Slack(level: Byte): nat {
      level * Hop()
    }

    function LeaderStart(): int
      requires leader in start
    {
      start[leader]
    }
  }

  /** `last[i]` is the latest instant at which node i has acted. */
  datatype Net = Net(nodes: map<Addr, Node>, last: map<Addr, int>, flight: multiset<Packet>, demoted: bool)

  datatype Action =
    | Deliver(packet: Packet, r: Readings)
    | Lose(packet: Packet)
    | Timers(i: Addr, readings: TimerReadings)
    | Command(i: Addr, argument: Byte, t: int)
    | ChangePeers(i: Addr, peers: seq<Addr>)

  ghost predicate Start(P: Params, s: Net) {
    && P.Valid()
    && s.nodes.Keys == P.start.Keys && s.last == P.start
    && (forall i :: i in s.nodes ==> Initial(s.nodes[i]))
    && s.flight == multiset{} && !s.demoted
  }

  /** What the network and the clocks allow. */
  predicate Possible(P: Params, s: Net, a: Action)
    requires P.grain > 0
  {
    match a
    case Deliver(p, r) =>
      && p in s.flight && p.dst in s.nodes && p.dst in s.last && p.dst in P.start
      && P.start[p.dst] <= s.last[p.dst] && r.From(s.last[p.dst])
      && OnGrain(r.first, P.grain) && OnGrain(r.third, P.grain)
      && p.sent <= r.first <= p.sent + P.maxDelay
    case Lose(p) =>
      p in s.flight
    case Timers(i, r) =>
      && i in s.nodes && i in s.last && i in P.start
      && P.start[i] <= s.last[i] && r.From(s.last[i], s.nodes[i])
      && forall k :: 0 <= k < |r.each| ==> OnGrain(r.each[k], P.grain)
    case Command(i, argument, t) =>
      i in s.nodes && i in s.last && i in P.start && P.start[i] <= s.last[i] <= t
    case ChangePeers(i, peers) =>
      i in s.nodes
  }

  function PacketSeq(i: Addr, sends: seq<Send>): (ps: seq<Packet>)
    ensures |ps| == |sends|
    ensures forall k :: 0 <= k < |ps| ==> ps[k] == Packet(i, sends[k].to, sends[k].msg, sends[k].at)
  {
    seq(|sends|, k requires 0 <= k < |sends| => Packet(i, sends[k].to, sends[k].msg, sends[k].at))
  }

  function PacketsOf(i: Addr, sends: seq<Send>): multiset<Packet> {
    multiset(PacketSeq(i, sends))
  }

  /** Node i moves to `o.node` at instant `t`, consuming `used` and sending `o.sends`. */
  function Move(s: Net, i: Addr, o: Outcome, t: int, used: multiset<Packet>): Net {
    Net(s.nodes[i := o.node], s.last[i := t], s.flight - used + PacketsOf(i, o.sends), s.demoted)
  }

  function Receive(n: Node, start: int, p: Packet, r: Readings): Outcome
    requires r.From(start)
  {
    match p.msg
    case SyncStart(level, timestamp) => OnSyncStart(n, start, p.src, level, timestamp, r)
    case DelayRequest => OnDelayRequest(n, start, p.src, r.first, r.second)
    case DelayResponse(level, timestamp) => OnDelayResponse(n, p.src, level, timestamp, r)
  }

  function Apply(P: Params, s: Net, a: Action): Net
    requires P.grain > 0 && Possible(P, s, a)
  {
    match a
    case Deliver(p, r) => Move(s, p.dst, Receive(s.nodes[p.dst], P.start[p.dst], p, r), r.fourth, multiset{p})
    case Lose(p) => s.(flight := s.flight - multiset{p})
    case Timers(i, r) => Move(s, i, OnTimers(s.nodes[i], P.start[i], r), r.deadline, multiset{})
    case Command(i, argument, t) =>
      var stops := i == P.leader && s.nodes[i].level == LEADER && argument == UNSYNCHRONIZED;
      Move(s, i, Outcome(OnLeader(s.nodes[i], argument, t), []), t, multiset{}).(demoted := s.demoted || stops)
    case ChangePeers(i, peers) => s.(nodes := s.nodes[i := s.nodes[i].(peers := peers)])
  }

  /** A run with any commands: the states passed through, and the action between each two of
      them. */
  ghost predicate IsFreeRun(P: Params, states: seq<Net>, run: seq<Action>) {
    && |states| == |run| + 1 && Start(P, states[0])
    && forall k :: 0 <= k < |run| ==> Possible(P, states[k], run[k]) && states[k + 1] == Apply(P, states[k], run[k])
  }

  // ----- Packets sent

  lemma PacketsSent(i: Addr, sends: seq<Send>, p: Packet)
    ensures p in PacketsOf(i, sends) <==>
            exists k :: 0 <= k < |sends| && p == Packet(i, sends[k].to, sends[k].msg, sends[k].at)
  {
    var ps := PacketSeq(i, sends);
    assert p in multiset(ps) <==> p in ps;
    if k :| 0 <= k < |sends| && p == Packet(i, sends[k].to, sends[k].msg, sends[k].at) {
      assert ps[k] == p;
    }
  }

  lemma OnePacket(i: Addr, x: Send)
    ensures PacketsOf(i, [x]) == multiset{Packet(i, x.to, x.msg, x.at)}
  {
    assert PacketSeq(i, [x]) == [Packet(i, x.to, x.msg, x.at)];
  }

  // ----- Exchange discipline

  /** The node an exchange message belongs to: the one that wants to synchronize. */
  function Client(p: Packet): Addr {
    if p.msg.DelayRequest? then p.src else p.dst
  }

  function Server(p: Packet): Addr {
    if p.msg.DelayRequest? then p.dst else p.src
  }

  predicate IsExchange(p: Packet) {
    !p.msg.SyncStart?
  }

  /** The node has an exchange open with that peer. */
  predicate OpenWith(n: Node, peer: Addr) {
    n.synchronizing && n.peerToSync == peer
  }

  predicate Belongs(nodes: map<Addr, Node>, p: Packet) {
    IsExchange(p) ==> Client(p) in nodes && OpenWith(nodes[Client(p)], Server(p))
  }

  ghost predicate OneExchangeEach(flight: multiset<Packet>) {
    forall p, q :: p in flight && q in flight && IsExchange(p) && IsExchange(q) && Client(p) == Client(q) ==>
      p == q && flight[p] == 1
  }

  /** A request or response in flight belongs to the exchange its client has open, and is the
      only one of that client. */
  ghost predicate Discipline(nodes: map<Addr, Node>, flight: multiset<Packet>) {
    (forall p :: p in flight ==> Belongs(nodes, p)) && OneExchangeEach(flight)
  }

  /** The messages left are some of those in flight. */
  ghost predicate Among(left: multiset<Packet>, flight: multiset<Packet>) {
    forall p :: p in left ==> p in flight && left[p] <= flight[p]
  }

  /** No exchange message of this client is in flight. */
  ghost predicate NoneOf(flight: multiset<Packet>, client: Addr) {
    forall q :: q in flight && IsExchange(q) ==> Client(q) != client
  }

  /** Node i changes while only SYNC_START is sent. */
  lemma QuietDiscipline(nodes: map<Addr, Node>, flight: multiset<Packet>, left: multiset<Packet>, i: Addr, m: Node,
                        sends: seq<Send>)
    requires Discipline(nodes, flight) && Among(left, flight) && i in nodes
    requires NoneOf(left, i) || (nodes[i].synchronizing ==> OpenWith(m, nodes[i].peerToSync))
    requires forall k :: 0 <= k < |sends| ==> sends[k].msg.SyncStart?
    ensures Discipline(nodes[i := m], left + PacketsOf(i, sends))
  {
    var after := left + PacketsOf(i, sends);
    forall p | p in after
      ensures Belongs(nodes[i := m], p) && (IsExchange(p) ==> p in flight && after[p] <= flight[p])
    {
      PacketsSent(i, sends, p);
      if p !in PacketsOf(i, sends) {
        assert Belongs(nodes, p);
      }
    }
  }

  /** Node i changes and sends one exchange message, of a client with no other in flight. */
  lemma ExchangeDiscipline(nodes: map<Addr, Node>, flight: multiset<Packet>, left: multiset<Packet>, i: Addr, m: Node,
                           x: Send)
    requires Discipline(nodes, flight) && Among(left, flight) && i in nodes
    requires NoneOf(left, i) || (nodes[i].synchronizing ==> OpenWith(m, nodes[i].peerToSync))
    requires var p := Packet(i, x.to, x.msg, x.at);
             IsExchange(p) && Belongs(nodes[i := m], p) && NoneOf(left, Client(p))
    ensures Discipline(nodes[i := m], left + PacketsOf(i, [x]))
  {
    OnePacket(i, x);
    var after := left + multiset{Packet(i, x.to, x.msg, x.at)};
    assert forall p :: p in after ==> p in left || p == Packet(i, x.to, x.msg, x.at);
    forall p | p in left
      ensures Belongs(nodes[i := m], p)
    {
      assert Belongs(nodes, p);
    }
  }

  /** Once the message of a client is taken, the client has none in flight. */
  lemma TakenAlone(nodes: map<Addr, Node>, flight: multiset<Packet>, p: Packet)
    requires Discipline(nodes, flight) && p in flight
    ensures Among(flight - multiset{p}, flight)
    ensures IsExchange(p) ==> NoneOf(flight - multiset{p}, Client(p)) && Belongs(nodes, p)
  {
  }

  lemma SyncStartDiscipline(nodes: map<Addr, Node>, flight: multiset<Packet>, p: Packet, start: int, r: Readings)
    requires Discipline(nodes, flight) && p in flight && p.dst in nodes && p.msg.SyncStart? && r.From(start)
    ensures var o := Receive(nodes[p.dst], start, p, r);
            Discipline(nodes[p.dst := o.node], flight - multiset{p} + PacketsOf(p.dst, o.sends))
  {
    var i, n, left := p.dst, nodes[p.dst], flight - multiset{p};
    var o := Receive(n, start, p, r);
    TakenAlone(nodes, flight, p);
    if o.sends == [] {
      QuietDiscipline(nodes, flight, left, i, o.node, o.sends);
    } else {
      NoneWithoutExchange(nodes, flight, left, i);
      ExchangeDiscipline(nodes, flight, left, i, o.node, o.sends[0]);
    }
  }

  lemma NoneWithoutExchange(nodes: map<Addr, Node>, flight: multiset<Packet>, left: multiset<Packet>, i: Addr)
    requires Discipline(nodes, flight) && Among(left, flight) && i in nodes && !nodes[i].synchronizing
    ensures NoneOf(left, i)
  {
    forall q | q in left && IsExchange(q)
      ensures Client(q) != i
    {
      assert Belongs(nodes, q);
    }
  }

  lemma DelayRequestDiscipline(nodes: map<Addr, Node>, flight: multiset<Packet>, p: Packet, start: int, r: Readings)
    requires Discipline(nodes, flight) && p in flight && p.dst in nodes && p.msg.DelayRequest? && r.From(start)
    ensures var o := Receive(nodes[p.dst], start, p, r);
            Discipline(nodes[p.dst := o.node], flight - multiset{p} + PacketsOf(p.dst, o.sends))
  {
    var i, n, left := p.dst, nodes[p.dst], flight - multiset{p};
    var o := Receive(n, start, p, r);
    TakenAlone(nodes, flight, p);
    assert nodes[i := n] == nodes;
    if o.sends == [] {
      QuietDiscipline(nodes, flight, left, i, o.node, o.sends);
    } else {
      ExchangeDiscipline(nodes, flight, left, i, o.node, o.sends[0]);
    }
  }

  lemma DelayResponseDiscipline(nodes: map<Addr, Node>, flight: multiset<Packet>, p: Packet, start: int, r: Readings)
    requires Discipline(nodes, flight) && p in flight && p.dst in nodes && p.msg.DelayResponse? && r.From(start)
    ensures var o := Receive(nodes[p.dst], start, p, r);
            Discipline(nodes[p.dst := o.node], flight - multiset{p} + PacketsOf(p.dst, o.sends))
  {
    TakenAlone(nodes, flight, p);
    var o := Receive(nodes[p.dst], start, p, r);
    QuietDiscipline(nodes, flight, flight - multiset{p}, p.dst, o.node, o.sends);
  }

  lemma DeliverDiscipline(nodes: map<Addr, Node>, flight: multiset<Packet>, p: Packet, start: int, r: Readings)
    requires Discipline(nodes, flight) && p in flight && p.dst in nodes && r.From(start)
    ensures var o := Receive(nodes[p.dst], start, p, r);
            Discipline(nodes[p.dst := o.node], flight - multiset{p} + PacketsOf(p.dst, o.sends))
  {
    match p.msg
    case SyncStart(_, _) => SyncStartDiscipline(nodes, flight, p, start, r);
    case DelayRequest => DelayRequestDiscipline(nodes, flight, p, start, r);
    case DelayResponse(_, _) => DelayResponseDiscipline(nodes, flight, p, start, r);
  }

  lemma StepDiscipline(P: Params, s: Net, a: Action)
    requires P.grain > 0 && Discipline(s.nodes, s.flight) && Possible(P, s, a)
    ensures var r := Apply(P, s, a); Discipline(r.nodes, r.flight)
  {
    match a
    case Deliver(p, r) => DeliverDiscipline(s.nodes, s.flight, p, P.start[p.dst], r);
    case Lose(p) => TakenAlone(s.nodes, s.flight, p);
    case Timers(i, r) =>
      var o := OnTimers(s.nodes[i], P.start[i], r);
      QuietDiscipline(s.nodes, s.flight, s.flight - multiset{}, i, o.node, o.sends);
    case Command(i, argument, t) =>
      QuietDiscipline(s.nodes, s.flight, s.flight - multiset{}, i, OnLeader(s.nodes[i], argument, t), []);
    case ChangePeers(i, peers) =>
      QuietDiscipline(s.nodes, s.flight, s.flight, i, s.nodes[i].(peers := peers), []);
      assert PacketsOf(i, []) == multiset{};
  }

  lemma {:induction false} RunDiscipline(P: Params, states: seq<Net>, run: seq<Action>)
    requires IsFreeRun(P, states, run)
    ensures Discipline(states[|run|].nodes, states[|run|].flight)
  {
    if run != [] {
      var k := |run| - 1;
      assert IsFreeRun(P, states[..|run|], run[..k]);
      RunDiscipline(P, states[..|run|], run[..k]);
      StepDiscipline(P, states[k], run[k]);
    }
  }

  /** Exchange discipline, whoever is told to lead.  A request or response in flight belongs
      to the exchange its client has open, with the peer it has it open with, and is the only
      one: so a node that is not synchronizing has none, and what it accepts answers its open
      request. */
  lemma OneOpenExchange(P: Params, states: seq<Net>, run: seq<Action>, p: Packet)
    requires IsFreeRun(P, states, run)
    requires p in states[|run|].flight && IsExchange(p)
    ensures var s := states[|run|];
            && s.flight[p] == 1
            && Client(p) in s.nodes && s.nodes[Client(p)].synchronizing && s.nodes[Client(p)].peerToSync == Server(p)
            && forall q :: q in s.flight && IsExchange(q) && Client(q) == Client(p) ==> q == p
  {
    RunDiscipline(P, states, run);
    assert Belongs(states[|run|].nodes, p);
  }

  // ----- Level discipline

  /** What an open exchange promises about levels. */
  predicate LevelReserved(n: Node) {
    n.synchronizing ==> n.synchronizingLevel <= 253 && n.synchronizingLevel < n.level
  }

  /** A level rises only by going to 255, and closing an exchange sets the level reserved. */
  predicate LevelFalls(n: Node, m: Node) {
    && (m.level <= n.level || m.level == UNSYNCHRONIZED)
    && (n.synchronizing && !m.synchronizing ==> m.level == n.synchronizingLevel + 1 <= n.level)
  }

  lemma MessageLowersLevel(n: Node, start: int, p: Packet, r: Readings)
    requires r.From(start) && LevelReserved(n)
    ensures var m := Receive(n, start, p, r).node; LevelReserved(m) && LevelFalls(n, m)
  {
  }

  lemma TimersLowerLevel(n: Node, start: int, r: TimerReadings)
    requires r.From(start, n) && LevelReserved(n)
    ensures var m := OnTimers(n, start, r).node; LevelReserved(m) && LevelFalls(n, m)
  {
  }

  /** LEADER breaks the promise of an open exchange exactly when its argument is 0. */
  lemma LeaderLowersLevels(n: Node, argument: Byte, t: int)
    requires LevelReserved(n)
    ensures LevelFalls(n, OnLeader(n, argument, t))
    ensures LevelReserved(OnLeader(n, argument, t)) <==> !(argument == LEADER && n.synchronizing)
  {
  }

  /** LEADER 0 is not delivered to a node with an exchange open. */
  predicate Calm(s: Net, a: Action) {
    a.Command? && a.i in s.nodes && a.argument == LEADER ==> !s.nodes[a.i].synchronizing
  }

  ghost predicate Reserved(s: Net) {
    forall i :: i in s.nodes ==> LevelReserved(s.nodes[i])
  }

  lemma DeliverLowersLevels(P: Params, s: Net, p: Packet, r: Readings, i: Addr)
    requires P.grain > 0 && Possible(P, s, Deliver(p, r)) && i in s.nodes && LevelReserved(s.nodes[i])
    ensures var m := Apply(P, s, Deliver(p, r)).nodes; i in m && LevelReserved(m[i]) && LevelFalls(s.nodes[i], m[i])
  {
    if i == p.dst {
      MessageLowersLevel(s.nodes[i], P.start[i], p, r);
    }
  }

  lemma TimersLowerLevels(P: Params, s: Net, j: Addr, r: TimerReadings, i: Addr)
    requires P.grain > 0 && Possible(P, s, Timers(j, r)) && i in s.nodes && LevelReserved(s.nodes[i])
    ensures var m := Apply(P, s, Timers(j, r)).nodes; i in m && LevelReserved(m[i]) && LevelFalls(s.nodes[i], m[i])
  {
    if i == j {
      TimersLowerLevel(s.nodes[i], P.start[i], r);
    }
  }

  lemma CommandLowersLevels(P: Params, s: Net, j: Addr, argument: Byte, t: int, i: Addr)
    requires var a := Command(j, argument, t); P.grain > 0 && Possible(P, s, a) && Calm(s, a)
    requires i in s.nodes && LevelReserved(s.nodes[i])
    ensures var m := Apply(P, s, Command(j, argument, t)).nodes;
            i in m && LevelReserved(m[i]) && LevelFalls(s.nodes[i], m[i])
  {
    if i == j {
      LeaderLowersLevels(s.nodes[i], argument, t);
    }
  }

  lemma StepLowersLevels(P: Params, s: Net, a: Action, i: Addr)
    requires P.grain > 0 && Possible(P, s, a) && Calm(s, a) && i in s.nodes && LevelReserved(s.nodes[i])
    ensures var r := Apply(P, s, a); i in r.nodes && LevelReserved(r.nodes[i]) && LevelFalls(s.nodes[i], r.nodes[i])
  {
    match a
    case Deliver(p, r) => DeliverLowersLevels(P, s, p, r, i);
    case Timers(j, r) => TimersLowerLevels(P, s, j, r, i);
    case Command(j, argument, t) => CommandLowersLevels(P, s, j, argument, t, i);
    case _ =>
  }

  lemma {:induction false} RunReserved(P: Params, states: seq<Net>, run: seq<Action>)
    requires IsFreeRun(P, states, run) && forall k :: 0 <= k < |run| ==> Calm(states[k], run[k])
    ensures Reserved(states[|run|])
  {
    if run != [] {
      var k := |run| - 1;
      assert IsFreeRun(P, states[..|run|], run[..k]);
      RunReserved(P, states[..|run|], run[..k]);
      var r := Apply(P, states[k], run[k]);
      forall i | i in r.nodes
        ensures LevelReserved(r.nodes[i])
      {
        assert i in states[k].nodes;
        StepLowersLevels(P, states[k], run[k], i);
      }
    }
  }

  /** Level discipline, given only that LEADER 0 reaches no node with an exchange open.  A
      synchronizing node may take the level it is about to take, and a level rises only by
      going to 255, so the 8-bit level never wraps. */
  lemma LevelsFall(P: Params, states: seq<Net>, run: seq<Action>, a: Action, i: Addr)
    requires IsFreeRun(P, states, run) && forall k :: 0 <= k < |run| ==> Calm(states[k], run[k])
    requires var s := states[|run|]; Possible(P, s, a) && Calm(s, a) && i in s.nodes
    ensures var s := states[|run|];
            && LevelReserved(s.nodes[i])
            && i in Apply(P, s, a).nodes && LevelFalls(s.nodes[i], Apply(P, s, a).nodes[i])
  {
    RunReserved(P, states, run);
    StepLowersLevels(P, states[|run|], a, i);
  }
}
