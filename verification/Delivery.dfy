/**
  Conservation over every run: each uplink that the gateway hears reaches the dispatcher once, and each client of a
  router that it is for once, in order.
 */
module Delivery {
  import opened Wrappers
  import opened Regions
  import opened Packet
  import Frame
  import Store
  import opened RoutingTable
  import opened Dispatcher
  import Client
  import Session
  import opened System
  import RegionSafety

  // -------- Where the uplinks of a channel are --------

  /** An uplink with a region: the one held at dispatch, or the one it is sent under. */
  type Stamped = Client.Attempt

  /** The uplinks taken by the dispatcher that are for channel `c`, with the regions held then. */
  ghost function MeantFor(c: nat, taken: seq<Taken>): seq<Stamped> {
    if taken == [] then []
    else
      var front, last := taken[..|taken| - 1], taken[|taken| - 1];
      MeantFor(c, front) + if c in last.targets then [Client.Attempt(last.p, last.region)] else []
  }

  /** The packets sent by the client of channel `c`, with the regions stamped on them. */
  ghost function SentBy(c: nat, attempts: seq<System.Attempt>): seq<Stamped> {
    if attempts == [] then []
    else
      var front, last := attempts[..|attempts| - 1], attempts[|attempts| - 1];
      SentBy(c, front) + if last.chan == c then [Client.Attempt(last.p, last.region)] else []
  }

  /** The uplinks in a line of messages to a client. */
  ghost function Uplinks(line: seq<Queued>): seq<Stamped> {
    if line == [] then [] else UplinkIn(line[0]) + Uplinks(line[1..])
  }

  ghost function UplinkIn(q: Queued): seq<Stamped> {
    match q.message
    case Uplink(packet, received) => [Client.Attempt(Store.QuePacket(packet, received), q.held)]
    case _ => []
  }

  ghost function InStore(store: seq<Held>): seq<Stamped> {
    seq(|store|, i requires 0 <= i < |store| => Client.Attempt(store[i].p, store[i].held))
  }

  /** The client of a channel; before it starts, one that holds nothing. */
  ghost function TaskOf(s: State, c: nat): ClientTask {
    if c in s.clients then s.clients[c] else ClientTask(s.dispatcher.core.region, [], [], Idle)
  }

  /** The messages on their way to a client: on its channel, or decided on by the dispatcher. */
  ghost function OnTheWay(s: State, c: nat): seq<Queued> {
    TaskOf(s, c).queue + RegionSafety.PendingFor(c, s.pending, s.dispatcher.core.region)
  }

  /** Sent, in store, and on the way: these are the uplinks for the channel, in order. */
  ghost predicate ChannelKept(s: State, c: nat) {
    MeantFor(c, s.log.taken) == SentBy(c, s.log.attempts) + InStore(TaskOf(s, c).store) + Uplinks(OnTheWay(s, c))
  }

  // -------- Where the uplinks of the radio are --------

  ghost function UplinksQueued(queue: seq<DispatcherMessage>): seq<Store.QuePacket> {
    if queue == [] then []
    else
      (match queue[0]
       case UplinkMessage(packet, received) => [Store.QuePacket(packet, received)]
       case QueryMessage => [])
      + UplinksQueued(queue[1..])
  }

  ghost function InHand(g: GatewayPhase): seq<Store.QuePacket> {
    if g.SendingUplink? then [Store.QuePacket(g.packet, g.received)] else []
  }

  ghost function TakenPackets(taken: seq<Taken>): seq<Store.QuePacket> {
    seq(|taken|, i requires 0 <= i < |taken| => taken[i].p)
  }

  ghost predicate HeardKept(s: State) {
    s.log.heard == TakenPackets(s.log.taken) + UplinksQueued(s.dispatcherQueue) + InHand(s.gateway)
  }

  ghost predicate Inv(s: State) {
    HeardKept(s) && forall c: nat :: ChannelKept(s, c)
  }

  // -------- From the radio to the dispatcher --------

  lemma {:induction false} UplinksQueuedAppend(queue: seq<DispatcherMessage>, m: DispatcherMessage)
    ensures UplinksQueued(queue + [m]) == UplinksQueued(queue) + UplinksQueued([m])
  {
    if queue == [] {
      assert queue + [m] == [m];
    } else {
      UplinksQueuedAppend(queue[1..], m);
      assert (queue + [m])[1..] == queue[1..] + [m];
    }
  }

  lemma HeardSend(setup: Setup, s: State)
    requires HeardKept(s) && Enabled(setup, s, GatewaySend)
    ensures HeardKept(Apply(setup, s, GatewaySend))
  {
    if s.gateway.SendingUplink? {
      var m := UplinkMessage(s.gateway.packet, s.gateway.received);
      UplinksQueuedAppend(s.dispatcherQueue, m);
      assert UplinksQueued([m]) == InHand(s.gateway);
    }
    hide TakenPackets, UplinksQueued;
  }

  /** The event takes the uplink at the head of the channel, or none and no uplink leaves the channel. */
  lemma TakesUplink(config: Config, d: Session.State, e: Session.Event, queue: seq<DispatcherMessage>)
    requires TakesHead(queue, e)
    ensures var rest := if IsMessage(e) then queue[1..] else queue;
            TakenPackets(TakenBy(d, config, e)) + UplinksQueued(rest) == UplinksQueued(queue)
  {
    hide TargetKeys;
  }

  lemma TakenPacketsJoin(a: seq<Taken>, b: seq<Taken>)
    ensures TakenPackets(a + b) == TakenPackets(a) + TakenPackets(b)
  {
  }

  lemma HeardEvent(setup: Setup, s: State, step: Step)
    requires HeardKept(s) && step.DispatcherEvent? && Enabled(setup, s, step)
    ensures HeardKept(Apply(setup, s, step))
  {
    hide Session.Step, Session.SendsFor, Session.Enabled, StartClients, TakenBy, TakenPackets, UplinksQueued, Joining;
    var more := TakenBy(s.dispatcher, setup.config, step.event);
    TakesUplink(setup.config, s.dispatcher, step.event, s.dispatcherQueue);
    TakenPacketsJoin(s.log.taken, more);
    var rest := Apply(setup, s, step).dispatcherQueue;
    Regroup(TakenPackets(s.log.taken), TakenPackets(more), UplinksQueued(rest), InHand(s.gateway));
  }

  lemma Regroup<T>(a: seq<T>, b: seq<T>, c: seq<T>, d: seq<T>)
    ensures a + (b + c) + d == (a + b) + c + d
  {
  }

  lemma HeardRadio(setup: Setup, s: State, step: Step)
    requires HeardKept(s) && step.RadioPacket? && Enabled(setup, s, step)
    ensures HeardKept(Apply(setup, s, step))
  {
    hide OnRadio, TakenPackets, UplinksQueued;
  }

  /** Every step keeps the account of the uplinks heard. */
  lemma HeardStep(setup: Setup, s: State, step: Step)
    requires HeardKept(s) && Enabled(setup, s, step)
    ensures HeardKept(Apply(setup, s, step))
  {
    hide OnRadio, Deliver, StartClients, TakenPackets, UplinksQueued;
    match step
    case DispatcherEvent(_, _) => HeardEvent(setup, s, step);
    case GatewaySend => HeardSend(setup, s);
    case RadioPacket(_, _) => HeardRadio(setup, s, step);
    case ApiSend(_) =>
      UplinksQueuedAppend(s.dispatcherQueue, QueryMessage);
      NoUplink();
    case DispatcherSend => HeardDelivery(setup, s);
    case _ =>
  }

  lemma NoUplink()
    ensures UplinksQueued([QueryMessage]) == []
  {
  }

  lemma HeardDelivery(setup: Setup, s: State)
    requires HeardKept(s) && Enabled(setup, s, DispatcherSend)
    ensures HeardKept(Apply(setup, s, DispatcherSend))
  {
    hide TakenPackets, UplinksQueued;
  }

  // -------- From the dispatcher to the clients --------

  lemma Associate<T>(a: seq<T>, b: seq<T>, c: seq<T>)
    ensures a + (b + c) == (a + b) + c
  {
  }

  lemma {:induction false} UplinksJoin(a: seq<Queued>, b: seq<Queued>)
    ensures Uplinks(a + b) == Uplinks(a) + Uplinks(b)
  {
    if a == [] {
      assert a + b == b;
    } else {
      hide UplinkIn;
      UplinksJoin(a[1..], b);
      assert (a + b)[1..] == a[1..] + b && (a + b)[0] == a[0];
      Associate(UplinkIn(a[0]), Uplinks(a[1..]), Uplinks(b));
    }
  }

  lemma MeantForMore(c: nat, taken: seq<Taken>, t: Taken)
    ensures MeantFor(c, taken + [t])
         == MeantFor(c, taken) + if c in t.targets then [Client.Attempt(t.p, t.region)] else []
  {
    assert (taken + [t])[..|taken|] == taken;
  }

  lemma SentByMore(c: nat, attempts: seq<System.Attempt>, a: System.Attempt)
    ensures SentBy(c, attempts + [a])
         == SentBy(c, attempts) + if a.chan == c then [Client.Attempt(a.p, a.region)] else []
  {
    assert (attempts + [a])[..|attempts|] == attempts;
  }

  /** An uplink goes to exactly the channels that it is for, and no other event sends one. */
  lemma EventUplinks(setup: Setup, d: Session.State, e: Session.Event, sends: seq<Send>, c: nat, held: Region,
                     taken: seq<Taken>)
    requires Session.Sound(d) && Session.Enabled(d, e) && Session.SendsFor(d, setup.config, e, sends)
    requires e.UplinkArrived? ==> held == d.core.region
    ensures MeantFor(c, taken + TakenBy(d, setup.config, e))
         == MeantFor(c, taken) + Uplinks(RegionSafety.PendingFor(c, sends, held))
  {
    hide Session.Sound;
    var routers := d.core.table.routers;
    match e
    case UplinkArrived(packet, received) =>
      var keys := TargetKeys(routers, setup.config, packet);
      var order :| OrderOf(order, routers, keys) && sends == Broadcast(order, Uplink(packet, received));
      RegionSafety.PendingBroadcast(order, Uplink(packet, received), c, held);
      var t := TakenBy(d, setup.config, e)[0];
      OrderIsTargets(order, routers, keys, c);
      MeantForMore(c, taken, t);
      hide OrderOf, Broadcast, TargetKeys;
      assert Uplinks([Queued(Uplink(packet, received), held)])
          == [Client.Attempt(Store.QuePacket(packet, received), held)];
    case RegionUpdate(u) =>
      RegionSendsNoUplink(setup, d, e, sends, c, held);
      assert taken + [] == taken;
    case RoutingUpdate(_, _) =>
      RegionSafety.RoutingSendsNothing(setup, d, e, sends);
      assert taken + [] == taken;
    case _ =>
      assert taken + [] == taken;
  }

  lemma OrderIsTargets(order: seq<nat>, routers: Routers, keys: set<RouterKey>, c: nat)
    requires OrderOf(order, routers, keys) && keys <= routers.Keys
    ensures c in order <==> c in (set k | k in keys :: routers[k].chan)
  {
    if c in order {
      var i :| 0 <= i < |order| && order[i] == c;
      assert Serves(order[i], routers, keys);
      var k :| k in keys && k in routers && routers[k].chan == order[i];
    }
  }

  lemma RegionSendsNoUplink(setup: Setup, d: Session.State, e: Session.Event, sends: seq<Send>, c: nat, held: Region)
    requires Session.Enabled(d, e) && Session.SendsFor(d, setup.config, e, sends) && e.RegionUpdate?
    ensures Uplinks(RegionSafety.PendingFor(c, sends, held)) == []
  {
    var routers, u := d.core.table.routers, e.region;
    if RegionAccepted(d.core, u) {
      var order :| OrderOf(order, routers, routers.Keys)
                && sends == [ToGateway(u.params.value)] + Broadcast(order, RegionChanged(u.params.value.region));
      assert sends[1..] == Broadcast(order, RegionChanged(u.params.value.region));
      RegionSafety.PendingBroadcast(order, RegionChanged(u.params.value.region), c, held);
    }
  }

  /** An event leaves stores and channels as they are; a task that it starts holds nothing. */
  lemma EventTask(setup: Setup, s: State, step: Step, c: nat)
    requires step.DispatcherEvent? && Enabled(setup, s, step)
    ensures var t, t' := TaskOf(s, c), TaskOf(Apply(setup, s, step), c);
            t'.store == t.store && t'.queue == t.queue
  {
    hide Session.Step, Session.SendsFor, TargetKeys;
  }

  /** The account of a channel, as an equation between sequences. */
  ghost predicate Balanced(s: State, c: nat, meant: seq<Stamped>, sent: seq<Stamped>,
                           store: seq<Held>, line: seq<Queued>) {
    && MeantFor(c, s.log.taken) == meant && SentBy(c, s.log.attempts) == sent
    && TaskOf(s, c).store == store && OnTheWay(s, c) == line
    && meant == sent + InStore(store) + Uplinks(line)
  }

  lemma ChannelEvent(setup: Setup, s: State, step: Step, c: nat)
    requires ChannelKept(s, c) && Session.Sound(s.dispatcher) && step.DispatcherEvent? && Enabled(setup, s, step)
    ensures ChannelKept(Apply(setup, s, step), c)
  {
    hide Session.Step, Session.SendsFor, Session.Sound, Session.Enabled, TakenBy, StartClients, Joining;
    hide TaskOf, MeantFor, SentBy, Uplinks, InStore, RegionSafety.PendingFor;
    var s', t := Apply(setup, s, step), TaskOf(s, c);
    EventTask(setup, s, step, c);
    var r := s'.dispatcher.core.region;
    RegionSafety.ChannelsGrow(s.dispatcher, step.event);
    EventUplinks(setup, s.dispatcher, step.event, step.sends, c, r, s.log.taken);
    var more := RegionSafety.PendingFor(c, step.sends, r);
    NothingPending(s, c);
    UplinksJoin(t.queue, more);
    var meant, sent := MeantFor(c, s'.log.taken), SentBy(c, s.log.attempts);
    Regroup(sent, InStore(t.store), Uplinks(t.queue), Uplinks(more));
    assert Balanced(s', c, meant, sent, t.store, t.queue + more);
  }

  lemma NothingPending(s: State, c: nat)
    requires s.pending == []
    ensures OnTheWay(s, c) == TaskOf(s, c).queue
  {
  }

  lemma ChannelSend(setup: Setup, s: State, c: nat)
    requires ChannelKept(s, c) && Enabled(setup, s, DispatcherSend)
    ensures ChannelKept(Apply(setup, s, DispatcherSend), c)
  {
    if c in s.clients {
      RegionSafety.SendKeepsClient(setup, s, c);
    }
    hide Uplinks, MeantFor, SentBy;
    var s' := Apply(setup, s, DispatcherSend);
    assert OnTheWay(s', c) == OnTheWay(s, c);
  }

  /** An idle client's store is empty, so with room for one packet the uplink that it takes is stored. */
  lemma Received(t: ClientTask, max: nat, more: seq<Queued>)
    requires t.queue != [] && t.store == [] && max > 0
    ensures var t' := OnClientMessage(t, max);
            InStore(t.store) + Uplinks(t.queue + more) == InStore(t'.store) + Uplinks(t'.queue + more)
  {
    assert (t.queue + more)[1..] == t.queue[1..] + more;
    assert (t.queue + more)[0] == t.queue[0];
  }

  lemma ChannelReceive(setup: Setup, s: State, c: nat)
    requires ChannelKept(s, c) && RegionSafety.Inv(s) && setup.maxPackets > 0 && Enabled(setup, s, ClientReceive(c))
    ensures ChannelKept(Apply(setup, s, ClientReceive(c)), c)
  {
    hide MeantFor, SentBy, Uplinks, InStore, OnClientMessage, RegionSafety.PendingFor, RegionSafety.LineOk;
    var s', t, r := Apply(setup, s, ClientReceive(c)), s.clients[c], s.dispatcher.core.region;
    var more, t' := RegionSafety.PendingFor(c, s.pending, r), OnClientMessage(t, setup.maxPackets);
    assert RegionSafety.ClientOk(t, more, r);
    hide RegionSafety.Inv;
    Received(t, setup.maxPackets, more);
    var meant, sent := MeantFor(c, s.log.taken), SentBy(c, s.log.attempts);
    assert sent + InStore(t.store) + Uplinks(t.queue + more) == sent + (InStore(t.store) + Uplinks(t.queue + more));
    assert sent + InStore(t'.store) + Uplinks(t'.queue + more) == sent + (InStore(t'.store) + Uplinks(t'.queue + more));
    assert Balanced(s', c, meant, sent, t'.store, t'.queue + more);
  }

  lemma InStoreTail(store: seq<Held>)
    requires store != []
    ensures InStore(store) == [Client.Attempt(store[0].p, store[0].held)] + InStore(store[1..])
  {
  }

  lemma ChannelClientSend(setup: Setup, s: State, step: Step)
    requires step.ClientSend? && Enabled(setup, s, step) && ChannelKept(s, step.chan) && RegionSafety.Inv(s)
    ensures ChannelKept(Apply(setup, s, step), step.chan)
  {
    hide MeantFor, SentBy, Uplinks, InStore, RegionSafety.PendingFor;
    var c := step.chan;
    var s', t := Apply(setup, s, step), s.clients[c];
    var p, r := t.store[0].p, s.dispatcher.core.region;
    assert RegionSafety.ClientOk(t, RegionSafety.PendingFor(c, s.pending, r), r);
    hide RegionSafety.Inv;
    var x := Client.Attempt(p, t.region);
    SentByMore(c, s.log.attempts, Attempt(c, p, t.region, t.store[0].held));
    InStoreTail(t.store);
    var meant, sent, line := MeantFor(c, s.log.taken), SentBy(c, s.log.attempts), OnTheWay(s, c);
    Regroup(sent, [x], InStore(t.store[1..]), Uplinks(line));
    assert Balanced(s', c, meant, sent + [x], t.store[1..], line);
  }

  /** A step that does not concern channel `c`. */
  ghost predicate Elsewhere(step: Step, c: nat) {
    match step
    case DispatcherEvent(_, _) => false
    case DispatcherSend => false
    case ClientReceive(d) => d != c
    case ClientSend(d, _) => d != c
    case _ => true
  }

  lemma ElsewhereKeeps(setup: Setup, s: State, step: Step, c: nat)
    requires Elsewhere(step, c) && Enabled(setup, s, step)
    ensures var s' := Apply(setup, s, step);
            && TaskOf(s', c).store == TaskOf(s, c).store && OnTheWay(s', c) == OnTheWay(s, c)
            && s'.log.taken == s.log.taken && SentBy(c, s'.log.attempts) == SentBy(c, s.log.attempts)
  {
    hide SentBy, RegionSafety.PendingFor, OnRadio, OnClientMessage, OnTheWay, StartClients, Deliver, TakenBy;
    var s' := Apply(setup, s, step);
    if step.ClientSend? {
      var t := s.clients[step.chan];
      SentByMore(c, s.log.attempts, Attempt(step.chan, t.store[0].p, t.region, t.store[0].held));
    }
    assert s'.pending == s.pending && s'.dispatcher == s.dispatcher && TaskOf(s', c).queue == TaskOf(s, c).queue;
    SameWay(s, s', c);
  }

  lemma SameWay(s: State, s': State, c: nat)
    requires s'.pending == s.pending && s'.dispatcher == s.dispatcher && TaskOf(s', c).queue == TaskOf(s, c).queue
    ensures OnTheWay(s', c) == OnTheWay(s, c)
  {
  }

  lemma ChannelStep(setup: Setup, s: State, step: Step, c: nat)
    requires ChannelKept(s, c) && RegionSafety.Inv(s) && setup.maxPackets > 0 && Enabled(setup, s, step)
    ensures ChannelKept(Apply(setup, s, step), c)
  {
    if Elsewhere(step, c) {
      ElsewhereKeeps(setup, s, step, c);
      hide *;
      ElsewhereKept(s, Apply(setup, s, step), c);
    } else if step.DispatcherEvent? {
      ChannelEvent(setup, s, step, c);
    } else if step.DispatcherSend? {
      ChannelSend(setup, s, c);
    } else if step.ClientReceive? {
      ChannelReceive(setup, s, c);
    } else {
      ChannelClientSend(setup, s, step);
    }
  }

  lemma ElsewhereKept(s: State, s': State, c: nat)
    requires ChannelKept(s, c) && TaskOf(s', c).store == TaskOf(s, c).store && OnTheWay(s', c) == OnTheWay(s, c)
    requires s'.log.taken == s.log.taken && SentBy(c, s'.log.attempts) == SentBy(c, s.log.attempts)
    ensures ChannelKept(s', c)
  {
  }

  // -------- Every run --------

  lemma InvInitial(setup: Setup)
    ensures Inv(Initial(setup))
  {
  }

  lemma {:induction false} InvRun(setup: Setup, run: seq<State>, i: nat)
    requires IsRun(setup, run) && i < |run| && setup.maxPackets > 0
    ensures Inv(run[i])
  {
    hide HeardKept, ChannelKept, RegionSafety.Inv, Enabled, Apply, Initial;
    if i == 0 {
      InvInitial(setup);
    } else {
      InvRun(setup, run, i - 1);
      RegionSafety.InvRun(setup, run, i - 1);
      assert Next(setup, run[i - 1], run[i - 1 + 1]);
      var step :| Enabled(setup, run[i - 1], step) && run[i] == Apply(setup, run[i - 1], step);
      HeardStep(setup, run[i - 1], step);
      forall c: nat
        ensures ChannelKept(run[i], c)
      {
        ChannelStep(setup, run[i - 1], step, c);
      }
    }
  }

  /**
    In every reachable state, with room for one packet in each client's store: the uplinks heard are those the
    dispatcher took, then those on its channel, then the one in the gateway's hand; and for every channel the uplinks
    that it was meant to get are those its client sent, then the one in its store, then those on the way to it, each
    once and in the order in which the dispatcher took them, and sent under the region that it held when it took them.
   */
  lemma EveryUplinkOnce(setup: Setup, s: State, c: nat)
    requires Reachable(setup, s) && setup.maxPackets > 0
    ensures s.log.heard == TakenPackets(s.log.taken) + UplinksQueued(s.dispatcherQueue) + InHand(s.gateway)
    ensures MeantFor(c, s.log.taken)
         == SentBy(c, s.log.attempts) + InStore(TaskOf(s, c).store) + Uplinks(OnTheWay(s, c))
  {
    var run :| IsRun(setup, run) && run[|run| - 1] == s;
    hide Enabled, Apply, Initial, HeardKept;
    InvRun(setup, run, |run| - 1);
    assert ChannelKept(s, c) && HeardKept(s);
    HeardMeans(s);
  }

  lemma HeardMeans(s: State)
    requires HeardKept(s)
    ensures s.log.heard == TakenPackets(s.log.taken) + UplinksQueued(s.dispatcherQueue) + InHand(s.gateway)
  {
  }

  // -------- No room at all --------

  ghost predicate Silent(s: State) {
    s.log.attempts == [] && forall c | c in s.clients :: s.clients[c].store == [] && !s.clients[c].phase.Handing?
  }

  lemma SilentStep(setup: Setup, s: State, step: Step)
    requires Silent(s) && setup.maxPackets == 0 && Enabled(setup, s, step)
    ensures Silent(Apply(setup, s, step))
  {
  }

  /** With no room for a single packet, no run ever sends one, and no client ever has a downlink to hand on. */
  lemma {:induction false} NoRoomSilent(setup: Setup, run: seq<State>, i: nat)
    requires IsRun(setup, run) && i < |run| && setup.maxPackets == 0
    ensures Silent(run[i])
  {
    if i == 0 {
    } else {
      NoRoomSilent(setup, run, i - 1);
      hide Silent, Enabled, Apply, Initial;
      assert Next(setup, run[i - 1], run[i - 1 + 1]);
      var step :| Enabled(setup, run[i - 1], step) && run[i] == Apply(setup, run[i - 1], step);
      SilentStep(setup, run[i - 1], step);
    }
  }

  // -------- The steps of a client are its handlers, taken apart --------

  ghost function Packets(store: seq<Held>): seq<Store.QuePacket> {
    seq(|store|, i requires 0 <= i < |store| => store[i].p)
  }

  /** What module Client sees of a task, given what it has sent and handed on so far. */
  ghost function View(t: ClientTask, attempts: seq<Client.Attempt>, downlinks: seq<Packet>): Client.ClientState {
    Client.ClientState(t.region, Packets(t.store), attempts, downlinks)
  }

  /** Taking a message starts the handling of an uplink, whose rest is a drain, or does all of a region change. */
  lemma ReceiveIsEvent(t: ClientTask, max: nat, net: Client.Network, attempts: seq<Client.Attempt>,
                       downlinks: seq<Packet>)
    requires t.queue != []
    ensures var v, v' := View(t, attempts, downlinks), View(OnClientMessage(t, max), attempts, downlinks);
            match t.queue[0].message
            case Uplink(packet, received) =>
              var e := Client.UplinkEvent(Store.QuePacket(packet, received));
              Client.OnEvent(v, max, e, net) == Client.Drain(v', net)
            case RegionChanged(region) => Client.OnEvent(v, max, Client.RegionEvent(region), net) == v'
            case Stop => v' == v
  {
    hide Client.Drain;
    var t' := OnClientMessage(t, max);
    if t.queue[0].message.Uplink? {
      var p := Store.QuePacket(t.queue[0].message.packet, t.queue[0].message.received);
      assert Packets(t'.store) == Store.Push(Packets(t.store), max, p);
    }
  }

  /** One send is one turn of the drain: it ends the drain if it fails, and goes on with it otherwise. */
  lemma SendIsDrain(t: ClientTask, reply: Client.Reply, net: Client.Network, attempts: seq<Client.Attempt>,
                    downlinks: seq<Packet>)
    requires t.store != [] && net(|attempts|) == reply
    ensures var t' := t.(store := t.store[1..], phase := AfterReply(reply));
            var sent := attempts + [Client.Attempt(t.store[0].p, t.region)];
            var v' := View(t', sent, downlinks + Client.DownlinkOf(reply));
            Client.Drain(View(t, attempts, downlinks), net) == if t'.phase.Idle? then v' else Client.Drain(v', net)
  {
    var v := View(t, attempts, downlinks);
    assert v.waiting[1..] == Packets(t.store[1..]);
    assert reply.RouteFailed? ==> downlinks + Client.DownlinkOf(reply) == downlinks;
  }

  // -------- From the received bytes to the targets --------

  /**
    What the gateway does with a packet from the radio: one with a bad checksum, or that is no frame, is ignored; a
    proprietary frame goes to the beaconer; and any other frame to the dispatcher, with the bytes received.
   */
  lemma RadioDecides(rxpk: RxPk, received: nat)
    ensures !rxpk.crcOk || Frame.ReadSpec(Frame.Uplink, rxpk.data).Err? ==> OnRadio(rxpk, received).Listening?
    ensures rxpk.crcOk && Frame.ReadSpec(Frame.Uplink, rxpk.data).Ok? ==>
            var phase := OnRadio(rxpk, received);
            && rxpk.data != []
            && (rxpk.data[0] >= 224 ==> phase.SendingBeacon? && phase.packet.payload == rxpk.data)
            && (rxpk.data[0] < 224 ==>
                  phase.SendingUplink? && phase.packet.payload == rxpk.data && phase.received == received)
  {
    hide Frame.Fields, Frame.Rejection;
    ChecksumDecides(rxpk);
    if FromRxPk(rxpk).Ok? {
      WitnessByBytes(FromRxPk(rxpk).value);
      hide FromRxPk;
    }
  }

  /** An uplink is for a router whose routing matches it, or, if no router's does, for a default router. */
  lemma TakenExact(setup: Setup, s: State, packet: Packet, received: nat, k: RouterKey)
    requires Reachable(setup, s) && k in s.dispatcher.core.table.routers
    ensures var routers := s.dispatcher.core.table.routers;
            var taken := TakenBy(s.dispatcher, setup.config, Session.UplinkArrived(packet, received));
            && |taken| == 1 && taken[0].p == Store.QuePacket(packet, received)
            && taken[0].region == s.dispatcher.core.region
            && (routers[k].chan in taken[0].targets <==>
                || routers[k].routing.MatchesRoutingInfo(packet.routing, setup.config.lookup)
                || ((forall j | j in routers ::
                       !routers[j].routing.MatchesRoutingInfo(packet.routing, setup.config.lookup))
                    && setup.config.defaultRouters.Some? && k.uri in setup.config.defaultRouters.value))
  {
    hide Reachable;
    RegionSafety.ReachableInv(setup, s);
    var table := s.dispatcher.core.table;
    TableConsistent(s.dispatcher.log.history);
    hide RegionSafety.Inv;
    var keys := TargetKeys(table.routers, setup.config, packet);
    var order := OrderExists(table, keys);
    hide Consistent;
    OrderExact(order, table, setup.config, packet, k);
    OrderIsTargets(order, table.routers, keys, table.routers[k].chan);
  }

  /** The system's client waits with exactly the packet that the client model hands on. */
  lemma RepliesAgree(c: nat, reply: Client.Reply, d: Packet)
    ensures AfterReply(reply) == Handing(d) <==> reply == Client.Response(Some(d))
    ensures Client.DownlinkOf(reply) == [d] <==> reply == Client.Response(Some(d))
    ensures AnswersIn(c, reply) == [Answer(c, d)] <==> reply == Client.Response(Some(d))
    ensures AfterReply(reply).Idle? <==> reply.RouteFailed?
    ensures Client.DownlinkOf(reply) == [] <==> AnswersIn(c, reply) == []
  {
  }
}
