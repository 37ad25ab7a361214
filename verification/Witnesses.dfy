/** Runs that lead into each kind of cycle of waits, and into a doomed state that is not a cycle yet. */
module Witnesses {
  import opened Wrappers
  import opened Lines
  import opened Bytes
  import opened Filter
  import opened Routing
  import opened Regions
  import opened Packet
  import opened RoutingTable
  import Dispatcher
  import Client
  import Session
  import opened System
  import RegionSafety
  import opened Waiting
  import opened Stuck
  import opened Recovery

  // -------- What the radio hears --------

  /** The shortest proprietary frame that is accepted. */
  const BEACON_FRAME := RxPk(true, [0xE0, 0, 0, 0, 0, 0, 0, 0, 0, 0, 0, 0], None)

  /** The shortest data frame, of device address 0. */
  const DATA_FRAME := RxPk(true, [0x40, 0, 0, 0, 0, 0, 0, 0, 0, 0, 0, 0], None)

  const UPLINK := Packet(Some(RoutingInformation(Some(DevaddrData(0)))), DATA_FRAME.data, None)

  lemma BeaconFrame()
    ensures OnRadio(BEACON_FRAME, 0).SendingBeacon?
  {
  }

  lemma DataFrame()
    ensures OnRadio(DATA_FRAME, 0) == SendingUplink(UPLINK, 0)
  {
    var b := DATA_FRAME.data;
    assert b[1..5] == [0, 0, 0, 0];
    assert FromLE([0, 0, 0, 0]) == 0;
  }

  lemma Stepped(setup: Setup, s: State, step: Step) returns (s': State)
    requires Reachable(setup, s) && Enabled(setup, s, step)
    ensures s' == Apply(setup, s, step) && Reachable(setup, s')
  {
    s' := Apply(setup, s, step);
    ReachableStep(setup, s, step);
  }

  // -------- The gateway and the beaconer --------

  ghost function Plan(setup: Setup): RegionParams {
    RegionParams(setup.region, [1], Some(1))
  }

  /** In session, with no routers, and nothing on the way but so many messages to the gateway and to the beaconer. */
  ghost predicate Jam(setup: Setup, s: State, transmitting: bool, toGateway: nat, toBeaconer: nat) {
    && Reachable(setup, s) && s.gateway.Listening? && s.beaconer.Transmitting? == transmitting
    && s.beaconerParams == Some(Plan(setup))
    && |s.gatewayQueue| == toGateway && |s.beaconerQueue| == toBeaconer
    && s.gatewayLine == (if transmitting then [BeaconerTask] else [])
    && s.dispatcherQueue == [] && s.dispatcherLine == [] && s.pending == [] && s.clients == map[]
    && s.dispatcher.phase.InSession? && s.dispatcher.core == Dispatcher.Core(setup.region, 0, 0, 0, NO_ROUTERS)
  }

  lemma FirstSend(setup: Setup) returns (s: State)
    ensures Reachable(setup, s) && s.gatewayQueue == [ParamsChanged(Plan(setup))] && s.pending == []
    ensures s == Initial(setup).(dispatcher := s.dispatcher, gatewayQueue := s.gatewayQueue, log := s.log)
    ensures s.dispatcher.phase.InSession? && s.dispatcher.core == Dispatcher.Core(setup.region, 0, 0, 0, NO_ROUTERS)
  {
    hide Reachable;
    var s0 := Initial(setup);
    ReachableInitial(setup);
    var sends := [Dispatcher.ToGateway(Plan(setup))];
    var s1 := Stepped(setup, s0, DispatcherEvent(Session.SetupDone(Plan(setup)), sends));
    assert s1.clients == map[];
    s := Stepped(setup, s1, DispatcherSend);
  }

  lemma FirstPlan(setup: Setup) returns (s: State)
    ensures Jam(setup, s, false, 0, 0)
  {
    hide Reachable, Leave, Place;
    var s2 := FirstSend(setup);
    var s3 := Stepped(setup, s2, GatewayReceive);
    var s4 := Stepped(setup, s3, GatewaySend);
    var s5 := Stepped(setup, s4, GatewayRemember);
    s := Stepped(setup, s5, BeaconerReceive);
  }

  lemma {:induction false} FillGateway(setup: Setup, n: nat) returns (s: State)
    requires n <= GATEWAY_CAPACITY
    ensures Jam(setup, s, false, n, 0)
  {
    hide Reachable;
    if n == 0 {
      s := FirstPlan(setup);
    } else {
      var s0 := FillGateway(setup, n - 1);
      var s1 := Stepped(setup, s0, BeaconTick(1));
      assert s1.gatewayLine == [BeaconerTask];
      s := Stepped(setup, s1, BeaconerSend);
    }
  }

  lemma {:induction false} FillBeaconer(setup: Setup, n: nat) returns (s: State)
    requires n <= BEACONER_CAPACITY
    ensures Jam(setup, s, true, GATEWAY_CAPACITY, n)
  {
    hide Reachable, OnRadio, Place, Leave;
    if n == 0 {
      var s0 := FillGateway(setup, GATEWAY_CAPACITY);
      s := Stepped(setup, s0, BeaconTick(1));
    } else {
      var s0 := FillBeaconer(setup, n - 1);
      BeaconFrame();
      var s1 := Stepped(setup, s0, RadioPacket(BEACON_FRAME, 0));
      s := Stepped(setup, s1, GatewaySend);
    }
  }

  /** Whatever the settings, the gateway and the beaconer can come to wait for each other. */
  lemma BeaconerCycle(setup: Setup)
    ensures exists s :: Reachable(setup, s) && IsStuck(s) && WaitsFor(s, GatewayTask) == Some(BeaconerTask)
  {
    hide Reachable, OnRadio, Place, Leave;
    var s0 := FillBeaconer(setup, BEACONER_CAPACITY);
    BeaconFrame();
    var s1 := Stepped(setup, s0, RadioPacket(BEACON_FRAME, 0));
    assert IsStuck(s1);
  }

  // -------- The gateway and the dispatcher --------

  /** The gateway hears an uplink and puts it on the dispatcher's channel. */
  lemma UplinkHeard(setup: Setup, s: State) returns (s': State)
    requires Reachable(setup, s) && s.gateway.Listening? && s.dispatcherLine == []
    requires |s.dispatcherQueue| < DISPATCHER_CAPACITY
    ensures Reachable(setup, s')
    ensures s' == s.(dispatcherQueue := s.dispatcherQueue + [Dispatcher.UplinkMessage(UPLINK, 0)], log := s'.log)
  {
    hide Reachable, OnRadio;
    DataFrame();
    var s1 := Stepped(setup, s, RadioPacket(DATA_FRAME, 0));
    assert s1.dispatcherLine == [GatewayTask];
    s' := Stepped(setup, s1, GatewaySend);
  }

  /** So many uplinks more on the dispatcher's channel, and nothing else changed. */
  lemma {:induction false} UplinksHeard(setup: Setup, s: State, n: nat) returns (s': State)
    requires Reachable(setup, s) && s.gateway.Listening? && s.dispatcherLine == []
    requires |s.dispatcherQueue| + n <= DISPATCHER_CAPACITY
    ensures Reachable(setup, s') && |s'.dispatcherQueue| == |s.dispatcherQueue| + n
    ensures s' == s.(dispatcherQueue := s'.dispatcherQueue, log := s'.log)
    ensures s.dispatcherQueue == [] && n > 0 ==> s'.dispatcherQueue[0] == Dispatcher.UplinkMessage(UPLINK, 0)
  {
    hide Reachable;
    if n == 0 {
      s' := s;
    } else {
      var s1 := UplinksHeard(setup, s, n - 1);
      s' := UplinkHeard(setup, s1);
    }
  }

  /** Whatever the settings, the gateway and the dispatcher can come to wait for each other. */
  lemma DispatcherCycle(setup: Setup)
    ensures exists s :: Reachable(setup, s) && IsStuck(s) && WaitsFor(s, GatewayTask) == Some(DispatcherTask)
                     && WaitsFor(s, DispatcherTask) == Some(GatewayTask)
  {
    hide Reachable, OnRadio, Place, Leave;
    var s0 := FillGateway(setup, GATEWAY_CAPACITY);
    var s1 := UplinksHeard(setup, s0, DISPATCHER_CAPACITY);
    DataFrame();
    var s2 := Stepped(setup, s1, RadioPacket(DATA_FRAME, 0));
    var p := Plan(setup);
    var sends := [Dispatcher.ToGateway(p)];
    NoRouters(s2.dispatcher, setup.config, p);
    var s3 := Stepped(setup, s2, DispatcherEvent(Session.RegionUpdate(Dispatcher.RegionResponse(1, Some(p))), sends));
    assert IsStuck(s3);
  }

  lemma NoRouters(d: Session.State, config: Dispatcher.Config, p: RegionParams)
    requires d.core.table == NO_ROUTERS && d.core.regionHeight == 0
    ensures Session.SendsFor(d, config, Session.RegionUpdate(Dispatcher.RegionResponse(1, Some(p))),
                             [Dispatcher.ToGateway(p)])
  {
    var none: seq<nat> := [];
    assert Dispatcher.OrderOf(none, d.core.table.routers, d.core.table.routers.Keys);
    var m := Dispatcher.RegionChanged(p.region);
    assert Dispatcher.Broadcast(none, m) == [];
    assert [Dispatcher.ToGateway(p)] == [Dispatcher.ToGateway(p)] + Dispatcher.Broadcast(none, m);
  }

  // -------- The gateway, the dispatcher and a client --------

  const ROUTER_A := KeyedUri("a", [])
  const ROUTER_B := KeyedUri("b", [])

  /** Both routers take every device address below 4. */
  const EITHER := Routing(1, [ROUTER_A, ROUTER_B], [], [DevAddrFilter(0, 4)])

  const KEY_A := RouterKey(1, ROUTER_A)
  const KEY_B := RouterKey(1, ROUTER_B)

  const TWO_ROUTERS: Routers := map[KEY_A := RouterEntry(EITHER, 0), KEY_B := RouterEntry(EITHER, 1)]

  function Starting(i: nat): bool {
    true
  }

  function EachStarting(i: nat): Starts {
    Starting
  }

  const ROUTING := Session.RoutingUpdate(Dispatcher.RoutingResponse(1, Some([Some(EITHER)])), EachStarting)

  lemma TwoRouters()
    ensures ApplyUpdate(NO_ROUTERS, Update(EITHER, Starting)) == Table(TWO_ROUTERS, 2)
  {
    var u := Update(EITHER, Starting);
    assert ROUTER_A != ROUTER_B;
    var t1 := PutUri(NO_ROUTERS, EITHER, ROUTER_A, true);
    var t2 := PutUri(t1, EITHER, ROUTER_B, true);
    assert t2 == Table(TWO_ROUTERS, 2);
    assert PutUris(t2, u, 2) == t2;
    assert PutUris(t1, u, 1) == t2;
    assert PutUris(NO_ROUTERS, u, 0) == t2;
    assert RemovalPass(TWO_ROUTERS, EITHER) == TWO_ROUTERS;
  }

  lemma OneUpdate()
    ensures Dispatcher.UpdatesOf([Some(EITHER)], EachStarting) == [Update(EITHER, Starting)]
    ensures Dispatcher.ApplyAll(NO_ROUTERS, [Update(EITHER, Starting)]) == Table(TWO_ROUTERS, 2)
  {
    TwoRouters();
    var routings, us := [Some(EITHER)], [Update(EITHER, Starting)];
    assert routings[..0] == [] && us[..0] == [];
    assert Dispatcher.UpdatesOf(routings[..0], EachStarting) == [];
    assert Dispatcher.ApplyAll(NO_ROUTERS, us[..0]) == NO_ROUTERS;
  }

  /** Both routers are for the uplink, in the order of their channels. */
  lemma BothTargets(config: Dispatcher.Config)
    ensures Dispatcher.OrderOf([0, 1], TWO_ROUTERS, Dispatcher.TargetKeys(TWO_ROUTERS, config, UPLINK))
  {
    Masks(0);
    assert EITHER.subnets[0].Contains(0);
    assert EITHER.MatchesRoutingInfo(UPLINK.routing, config.lookup);
    assert Dispatcher.TargetKeys(TWO_ROUTERS, config, UPLINK) == {KEY_A, KEY_B};
    assert [0, 1][0] == 0 && [0, 1][1] == 1;
    assert KEY_A in TWO_ROUTERS && TWO_ROUTERS[KEY_A].chan == 0;
    assert KEY_B in TWO_ROUTERS && TWO_ROUTERS[KEY_B].chan == 1;
  }

  const MESSAGE := Dispatcher.Uplink(UPLINK, 0)

  /** What the clients have to do with: the two routers, their tasks, and a full channel of the gateway. */
  ghost predicate Stage(setup: Setup, s: State) {
    && Reachable(setup, s) && |s.gatewayQueue| == GATEWAY_CAPACITY
    && s.dispatcher.phase.InSession? && s.dispatcher.core.table.routers == TWO_ROUTERS
    && 0 in s.clients && 1 in s.clients
  }

  lemma RoutersStarted(setup: Setup) returns (s: State)
    ensures Stage(setup, s) && s.gateway.Listening?
    ensures s.dispatcherLine == [] && s.dispatcherQueue == [] && s.pending == []
    ensures s.clients[0].queue == [] && s.clients[0].phase.Idle? && s.clients[0].store == []
    ensures s.clients[1].queue == [] && s.clients[1].phase.Idle? && s.clients[1].store == []
  {
    hide Reachable, Place, Leave, Dispatcher.UpdatesOf, Dispatcher.ApplyAll, ApplyUpdate;
    var s0 := FillGateway(setup, GATEWAY_CAPACITY);
    OneUpdate();
    assert Session.SendsFor(s0.dispatcher, setup.config, ROUTING, []) by {
      NobodyStopped(s0.dispatcher, setup.config);
    }
    s := Stepped(setup, s0, DispatcherEvent(ROUTING, []));
    assert KEY_A in TWO_ROUTERS && KEY_B in TWO_ROUTERS;
    assert 0 in Channels(TWO_ROUTERS) && 1 in Channels(TWO_ROUTERS);
  }

  lemma NobodyStopped(d: Session.State, config: Dispatcher.Config)
    requires d.core.table == NO_ROUTERS && d.core.routingHeight == 0
    ensures Session.SendsFor(d, config, ROUTING, [])
  {
    var updates := Dispatcher.UpdatesOf([Some(EITHER)], EachStarting);
    Session.NeverStopped([], updates);
    assert TableAfter([]) == NO_ROUTERS;
    var none: seq<nat> := [];
    assert Session.IsOrder(none, Session.StoppedBy(d.core.table, updates));
    assert Dispatcher.Broadcast(none, Dispatcher.Stop) == [];
  }

  /** The dispatcher takes an uplink, which is for both clients. */
  lemma UplinkTaken(setup: Setup, s: State) returns (s': State)
    requires Stage(setup, s) && s.pending == []
    requires s.dispatcherQueue != [] && s.dispatcherQueue[0] == Dispatcher.UplinkMessage(UPLINK, 0)
    ensures Stage(setup, s') && s'.pending == [Dispatcher.ToRouter(0, MESSAGE), Dispatcher.ToRouter(1, MESSAGE)]
    ensures s'.dispatcherQueue == s.dispatcherQueue[1..] && s'.dispatcherLine == s.dispatcherLine
    ensures s'.gateway == s.gateway && s'.gatewayLine == s.gatewayLine
    ensures s'.clients[0] == s.clients[0] && s'.clients[1] == s.clients[1]
  {
    hide Reachable, Place, Leave, Dispatcher.TargetKeys, Dispatcher.OrderOf;
    BothTargets(setup.config);
    var sends := Dispatcher.Broadcast([0, 1], MESSAGE);
    assert sends == [Dispatcher.ToRouter(0, MESSAGE), Dispatcher.ToRouter(1, MESSAGE)];
    s' := Stepped(setup, s, DispatcherEvent(Session.UplinkArrived(UPLINK, 0), sends));
  }

  /** The next of the dispatcher's sends is put on a client's channel. */
  lemma SentTo(setup: Setup, s: State, c: nat) returns (s': State)
    requires Stage(setup, s) && s.pending != [] && s.pending[0] == Dispatcher.ToRouter(c, MESSAGE)
    requires |s.pending| > 1 ==> s.pending[1].ToRouter?
    requires c in s.clients && |s.clients[c].queue| < CLIENT_CAPACITY
    ensures Stage(setup, s') && s'.pending == s.pending[1..]
    ensures s' == s.(pending := s'.pending, clients := s'.clients)
    ensures var t, q := s.clients[c], Queued(MESSAGE, s.dispatcher.core.region);
            s'.clients == s.clients[c := t.(queue := t.queue + [q])]
  {
    hide Reachable, Place, Leave;
    s' := Stepped(setup, s, DispatcherSend);
  }

  /** An idle client takes an uplink and sends it, with a given answer. */
  lemma ClientSends(setup: Setup, s: State, c: nat, reply: Client.Reply) returns (s': State)
    requires Stage(setup, s) && setup.maxPackets > 0 && c in s.clients && s.clients[c].phase.Idle?
    requires s.clients[c].store == [] && s.clients[c].queue != [] && s.clients[c].queue[0].message == MESSAGE
    ensures Stage(setup, s')
    ensures s'.clients == s.clients[c := s.clients[c].(queue := s.clients[c].queue[1..], phase := AfterReply(reply))]
    ensures s' == s.(clients := s'.clients, log := s'.log, gatewayLine := s'.gatewayLine)
  {
    hide Reachable, Place, Leave;
    var s1 := Stepped(setup, s, ClientReceive(c));
    assert |s1.clients[c].store| == 1;
    s' := Stepped(setup, s1, ClientSend(c, reply));
    assert s'.clients[c].store == [];
  }

  /** Client 1 waits for the gateway with so many messages on its channel; client 0 has nothing to do. */
  ghost predicate Crowded(setup: Setup, s: State, n: nat) {
    && Stage(setup, s) && s.gateway.Listening? && s.dispatcherLine == [] && s.dispatcherQueue == [] && s.pending == []
    && s.clients[0].queue == [] && s.clients[0].phase.Idle? && s.clients[0].store == []
    && s.clients[1].phase.Handing? && |s.clients[1].queue| == n
  }

  lemma Distributed(setup: Setup, s: State) returns (s': State)
    requires Stage(setup, s) && setup.maxPackets > 0 && s.gateway.Listening? && s.dispatcherLine == []
    requires s.dispatcherQueue == [] && s.pending == [] && |s.clients[1].queue| < CLIENT_CAPACITY
    requires s.clients[0].queue == [] && s.clients[0].phase.Idle? && s.clients[0].store == []
    ensures Stage(setup, s') && s'.gateway.Listening? && s'.dispatcherLine == []
    ensures s'.dispatcherQueue == [] && s'.pending == []
    ensures s'.clients[0].queue == [] && s'.clients[0].phase.Idle? && s'.clients[0].store == []
    ensures s'.clients[1]
         == s.clients[1].(queue := s.clients[1].queue + [Queued(MESSAGE, s'.dispatcher.core.region)])
  {
    hide Reachable, Place, Leave, Enabled, Apply;
    var s1 := UplinkHeard(setup, s);
    var s2 := UplinkTaken(setup, s1);
    var s3 := SentTo(setup, s2, 0);
    var s4 := SentTo(setup, s3, 1);
    s' := ClientSends(setup, s4, 0, Client.RouteFailed);
  }

  lemma {:induction false} FillClient(setup: Setup, n: nat) returns (s: State)
    requires n <= CLIENT_CAPACITY && setup.maxPackets > 0
    ensures Crowded(setup, s, n)
  {
    hide Reachable, Place, Leave, Enabled, Apply;
    if n == 0 {
      var s0 := RoutersStarted(setup);
      var s1 := Distributed(setup, s0);
      s := ClientSends(setup, s1, 1, Client.Response(Some(UPLINK)));
    } else {
      var s0 := FillClient(setup, n - 1);
      s := Distributed(setup, s0);
    }
  }

  /** An uplink for both clients is under way, and the gateway waits with another one. */
  lemma Overrun(setup: Setup) returns (s: State)
    requires setup.maxPackets > 0
    ensures Stage(setup, s) && s.gateway.SendingUplink? && |s.dispatcherQueue| == DISPATCHER_CAPACITY
    ensures s.pending == [Dispatcher.ToRouter(0, MESSAGE), Dispatcher.ToRouter(1, MESSAGE)]
    ensures s.clients[0].queue == [] && s.clients[1].phase.Handing? && |s.clients[1].queue| == CLIENT_CAPACITY
  {
    hide Reachable, Place, Leave, OnRadio;
    var s0 := FillClient(setup, CLIENT_CAPACITY);
    var s1 := UplinksHeard(setup, s0, DISPATCHER_CAPACITY);
    var s2 := UplinkTaken(setup, s1);
    var s3 := UplinkHeard(setup, s2);
    DataFrame();
    s := Stepped(setup, s3, RadioPacket(DATA_FRAME, 0));
  }

  /** Where a client keeps packets, a gateway can be doomed before there is a cycle of waits. */
  lemma DoomedNotStuck(setup: Setup)
    requires setup.maxPackets > 0
    ensures exists s :: Reachable(setup, s) && Doomed(s) && !IsStuck(s)
  {
    hide Reachable, Place, Leave, Enabled, Apply;
    var s := Overrun(setup);
    assert Hopeless(s, s.pending[1]);
    assert Doomed(s) && !IsStuck(s);
  }

  /** And the gateway, the dispatcher and a client can come to wait for each other in a circle. */
  lemma ClientCycle(setup: Setup)
    requires setup.maxPackets > 0
    ensures exists s, c :: Reachable(setup, s) && IsStuck(s) && WaitsFor(s, GatewayTask) == Some(DispatcherTask)
                        && WaitsFor(s, DispatcherTask) == Some(ClientOf(c))
  {
    hide Reachable, Place, Leave, Enabled, Apply;
    var s := Overrun(setup);
    var s' := SentTo(setup, s, 0);
    assert IsStuck(s') && WaitsFor(s', DispatcherTask) == Some(ClientOf(1));
  }

  // -------- The channels' capacities --------

  /** No channel ever holds more than it was made for. */
  lemma CapacitiesKept(setup: Setup, s: State)
    requires Reachable(setup, s)
    ensures |s.gatewayQueue| <= 10 && |s.dispatcherQueue| <= 20 && |s.beaconerQueue| <= 10
    ensures forall c | c in s.clients :: |s.clients[c].queue| <= 10
  {
    hide Reachable, GatewayLined, DispatcherLined, Distinct, RegionSafety.Inv;
    ReachableTidy(setup, s);
  }

  /** And every channel can be filled. */
  lemma CapacitiesReached(setup: Setup)
    ensures exists s :: Reachable(setup, s) && |s.gatewayQueue| == 10
    ensures exists s :: Reachable(setup, s) && |s.beaconerQueue| == 10
    ensures exists s :: Reachable(setup, s) && |s.dispatcherQueue| == 20
    ensures setup.maxPackets > 0 ==>
            exists s :: Reachable(setup, s) && 1 in s.clients && |s.clients[1].queue| == 10
  {
    hide Reachable, Enabled, Apply;
    var s0 := FillBeaconer(setup, BEACONER_CAPACITY);
    var s1 := FillGateway(setup, GATEWAY_CAPACITY);
    var s2 := UplinksHeard(setup, s1, DISPATCHER_CAPACITY);
    if setup.maxPackets > 0 {
      var s3 := FillClient(setup, CLIENT_CAPACITY);
    }
  }
}
