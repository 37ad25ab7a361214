/** Exactly when a waiting gateway can ever come nearer to its turn. */
module Recovery {
  import opened Lines
  import opened Packet
  import opened RoutingTable
  import opened Dispatcher
  import Client
  import Session
  import opened System
  import RegionSafety
  import opened Waiting
  import opened Stuck

  // -------- Doomed gateways --------

  /** A full client that takes no message before its downlink is on the gateway's channel, and has no slot for it. */
  ghost predicate Jammed(s: State, c: nat) {
    && c in s.clients && |s.clients[c].queue| >= CLIENT_CAPACITY
    && s.clients[c].phase.Handing? && !GatewayGrants(s, ClientOf(c))
  }

  /** A send that can only be done after the gateway has taken a message. */
  ghost predicate Hopeless(s: State, send: Send) {
    match send
    case ToGateway(_) => !GatewayGrants(s, DispatcherTask)
    case ToRouter(c, _) => Jammed(s, c)
  }

  ghost predicate SomeHopeless(s: State) {
    exists i :: 0 <= i < |s.pending| && Hopeless(s, s.pending[i])
  }

  ghost predicate GatewayWaits(s: State) {
    WaitsFor(s, GatewayTask).Some?
  }

  /** Those that the gateway waits for cannot go on before the gateway does. */
  ghost predicate Doomed(s: State) {
    && GatewayWaits(s)
    && if s.gateway.SendingUplink? then SomeHopeless(s)
       else s.beaconer.Transmitting? && !GatewayGrants(s, BeaconerTask)
  }

  /** How many messages have to be taken from the channel that the gateway sends on before it has its slot. */
  ghost function Ahead(s: State): int {
    if s.gateway.SendingUplink? then
      |s.dispatcherQueue| + Place(s.dispatcherLine, GatewayTask) - DISPATCHER_CAPACITY + 1
    else |s.beaconerQueue| - BEACONER_CAPACITY + 1
  }

  /** The gateway waits exactly while some message has to be taken first. */
  lemma WaitsWhileBehind(s: State)
    requires Tidy(s) && (s.gateway.SendingUplink? || s.gateway.SendingBeacon? || s.gateway.Forwarding?)
    ensures GatewayWaits(s) <==> Ahead(s) > 0
  {
    hide Place, NoRepeats, Bounded, Distinct;
  }

  // -------- Promises while the gateway takes nothing --------

  /** The gateway is sending: it takes nothing from its channel. */
  predicate Busy(s: State) {
    s.gateway.SendingUplink? || s.gateway.SendingBeacon? || s.gateway.Forwarding?
  }

  lemma MovedGrants(line: seq<Task>, used: nat, capacity: nat, m: Move<Task>, y: Task)
    requires NoRepeats(line) && (m.Join? ==> m.x !in line) && (m.Go? ==> Granted(line, used, capacity, m.x))
    requires y in line && m != Go(y)
    ensures Granted(Moved(line, m), used + if m.Go? then 1 else 0, capacity, y) <==> Granted(line, used, capacity, y)
  {
    if m.Go? {
      SendKeepsGrants(line, used, capacity, m.x, y);
    } else if m.Join? {
      JoinPlace(line, m.x, y);
    }
  }

  lemma GatewayUsed(setup: Setup, s: State, step: Step)
    requires Busy(s) && Enabled(setup, s, step)
    ensures |Apply(setup, s, step).gatewayQueue| == |s.gatewayQueue| + if GatewayMove(s, step).Go? then 1 else 0
  {
    hide Place, Leave, OnRadio, TakenBy, StartClients, Session.Step, Session.SendsFor;
  }

  /** A step keeps every promise of a slot in the gateway's channel and makes none to those that wait already. */
  lemma GrantsKept(setup: Setup, s: State, step: Step, y: Task)
    requires Tidy(s) && Busy(s) && Enabled(setup, s, step)
    requires AsksGateway(s, y) && AsksGateway(Apply(setup, s, step), y)
    ensures GatewayGrants(Apply(setup, s, step), y) <==> GatewayGrants(s, y)
  {
    hide Place, Leave, Granted, Bounded, NoRepeats, Enabled, Apply, GatewayMove, AsksGateway, DispatcherLined, Distinct;
    var m := GatewayMove(s, step);
    GatewayLineStep(setup, s, step);
    GatewayUsed(setup, s, step);
    assert y in s.gatewayLine && (m.Join? ==> m.x !in s.gatewayLine) && m != Go(y);
    MovedGrants(s.gatewayLine, |s.gatewayQueue|, GATEWAY_CAPACITY, m, y);
  }

  // -------- The turn of the gateway --------

  /** Whether a step takes a message from the dispatcher's channel. */
  ghost predicate TakesMessage(step: Step) {
    step.DispatcherEvent? && IsMessage(step.event)
  }

  lemma DispatcherUsed(setup: Setup, s: State, step: Step)
    requires Enabled(setup, s, step)
    ensures |Apply(setup, s, step).dispatcherQueue|
         == |s.dispatcherQueue| + (if DispatcherMove(s, step).Go? then 1 else 0) - if TakesMessage(step) then 1 else 0
    ensures TakesMessage(step) ==> DispatcherMove(s, step).Stay?
  {
    hide Place, Leave, OnRadio, TakenBy, StartClients, Session.Step, Session.SendsFor;
  }

  /** Others join behind the gateway, or leave from before it and fill a slot: its turn moves only with the taking. */
  lemma UplinkTurn(setup: Setup, s: State, step: Step)
    requires Tidy(s) && s.gateway.SendingUplink? && GatewayWaits(s) && Enabled(setup, s, step)
    ensures Apply(setup, s, step).gateway == s.gateway
    ensures Ahead(Apply(setup, s, step)) == Ahead(s) - if TakesMessage(step) then 1 else 0
  {
    hide Place, Leave, Bounded, NoRepeats, GatewayLined, Distinct;
    var s', m := Apply(setup, s, step), DispatcherMove(s, step);
    DispatcherLineStep(setup, s, step);
    DispatcherUsed(setup, s, step);
    UplinkStays(setup, s, step);
    hide Enabled, Apply, DispatcherMove;
    if m.Go? {
      GatewayBehind(s, m.x);
      LeavePlace(s.dispatcherLine, m.x, GatewayTask);
    } else if m.Join? {
      JoinPlace(s.dispatcherLine, m.x, GatewayTask);
    }
  }

  lemma UplinkStays(setup: Setup, s: State, step: Step)
    requires s.gateway.SendingUplink? && GatewayWaits(s) && Enabled(setup, s, step)
    ensures Apply(setup, s, step).gateway == s.gateway
    ensures DispatcherMove(s, step) != Go(GatewayTask) && DispatcherMove(s, step) != Join(GatewayTask)
  {
    hide Place, Leave, OnRadio, TakenBy, StartClients, Session.Step, Session.SendsFor;
  }

  lemma GatewayBehind(s: State, x: Task)
    requires DispatcherLined(s) && s.gateway.SendingUplink? && GatewayWaits(s) && DispatcherGrants(s, x)
    ensures NoRepeats(s.dispatcherLine) && x != GatewayTask
    ensures Place(s.dispatcherLine, x) < Place(s.dispatcherLine, GatewayTask)
  {
    hide Place;
  }

  lemma BeaconTurn(setup: Setup, s: State, step: Step)
    requires (s.gateway.SendingBeacon? || s.gateway.Forwarding?) && GatewayWaits(s) && Enabled(setup, s, step)
    ensures Apply(setup, s, step).gateway == s.gateway
    ensures Ahead(Apply(setup, s, step)) == Ahead(s) - if step.BeaconerReceive? then 1 else 0
  {
    hide Place, Leave, OnRadio, TakenBy, StartClients, Session.Step, Session.SendsFor;
  }

  // -------- A doomed gateway stays where it is --------

  /** A jammed client does not move. */
  lemma JammedStep(setup: Setup, s: State, step: Step, c: nat)
    requires Tidy(s) && Busy(s) && Enabled(setup, s, step) && Jammed(s, c)
    ensures Jammed(Apply(setup, s, step), c)
  {
    JammedStays(setup, s, step, c);
    hide Enabled, Apply, Tidy;
    GrantsKept(setup, s, step, ClientOf(c));
  }

  lemma JammedStays(setup: Setup, s: State, step: Step, c: nat)
    requires Enabled(setup, s, step) && Jammed(s, c)
    ensures var s' := Apply(setup, s, step);
            && c in s'.clients && |s'.clients[c].queue| >= CLIENT_CAPACITY && s'.clients[c].phase.Handing?
  {
    hide Place, Leave, OnRadio, TakenBy, Session.Step, Session.SendsFor;
  }

  /** While a send is hopeless it is not done, and it stays hopeless. */
  lemma HopelessStep(setup: Setup, s: State, step: Step, i: nat) returns (j: nat)
    requires Tidy(s) && Busy(s) && Enabled(setup, s, step) && i < |s.pending| && Hopeless(s, s.pending[i])
    ensures var s' := Apply(setup, s, step);
            j < |s'.pending| && s'.pending[j] == s.pending[i] && Hopeless(s', s'.pending[j])
    ensures !TakesMessage(step)
  {
    j := PendingStep(setup, s, step, i);
    var s' := Apply(setup, s, step);
    if s.pending[i].ToRouter? {
      JammedStep(setup, s, step, s.pending[i].chan);
    } else {
      hide Enabled, Apply, Granted;
      assert AsksGateway(s, DispatcherTask) && AsksGateway(s', DispatcherTask) by {
        FirstAsks(s, i);
      }
      GrantsKept(setup, s, step, DispatcherTask);
    }
  }

  lemma FirstAsks(s: State, i: nat)
    requires Distinct(s.pending) && i < |s.pending| && s.pending[i].ToGateway?
    ensures i == 0 && AsksGateway(s, DispatcherTask)
  {
  }

  lemma PendingStep(setup: Setup, s: State, step: Step, i: nat) returns (j: nat)
    requires Enabled(setup, s, step) && i < |s.pending| && Hopeless(s, s.pending[i])
    requires Distinct(s.pending)
    ensures var s' := Apply(setup, s, step);
            j < |s'.pending| && s'.pending[j] == s.pending[i]
    ensures s.pending[i].ToGateway? ==> i == 0 && j == 0
    ensures !TakesMessage(step)
  {
    hide Place, Leave, OnRadio, TakenBy, Session.Step, Session.SendsFor, StartClients;
    j := if step.DispatcherSend? then i - 1 else i;
  }

  /** Every step keeps a doomed gateway in the same send, no nearer to its turn. */
  lemma DoomedStep(setup: Setup, s: State, step: Step)
    requires Tidy(s) && RegionSafety.Inv(s) && Doomed(s) && Enabled(setup, s, step)
    ensures var s' := Apply(setup, s, step); Doomed(s') && s'.gateway == s.gateway && Ahead(s') == Ahead(s)
  {
    hide Tidy, WaitsFor, Hopeless, RegionSafety.Inv;
    TidyStep(setup, s, step);
    GatewayPhases(s);
    var s' := Apply(setup, s, step);
    hide Apply, Enabled;
    if s.gateway.SendingUplink? {
      var i :| 0 <= i < |s.pending| && Hopeless(s, s.pending[i]);
      var j := HopelessStep(setup, s, step, i);
      UplinkTurn(setup, s, step);
    } else {
      BeaconTurn(setup, s, step);
      StillTransmitting(setup, s, step);
    }
    WaitsWhileBehind(s);
    WaitsWhileBehind(s');
  }

  lemma GatewayPhases(s: State)
    requires Tidy(s) && GatewayWaits(s)
    ensures Busy(s)
  {
    GatewayWaitKinds(s);
  }

  lemma StillTransmitting(setup: Setup, s: State, step: Step)
    requires Tidy(s) && Busy(s) && !s.gateway.SendingUplink? && Enabled(setup, s, step)
    requires s.beaconer.Transmitting? && !GatewayGrants(s, BeaconerTask)
    ensures var s' := Apply(setup, s, step);
            s'.beaconer.Transmitting? && !GatewayGrants(s', BeaconerTask) && !step.BeaconerReceive?
  {
    hide Place, Leave, OnRadio, TakenBy, Session.Step, Session.SendsFor, Tidy, StartClients;
    var s' := Apply(setup, s, step);
    assert s'.beaconer.Transmitting?;
    hide Enabled, Apply;
    GrantsKept(setup, s, step, BeaconerTask);
  }

  // -------- Continuations --------

  ghost predicate IsPath(setup: Setup, path: seq<State>) {
    path != [] && forall i | 0 <= i < |path| - 1 :: Next(setup, path[i], path[i + 1])
  }

  /** The system can get from `s` to `s'`. */
  ghost predicate Leads(setup: Setup, s: State, s': State) {
    exists path :: IsPath(setup, path) && path[0] == s && path[|path| - 1] == s'
  }

  lemma LeadsToSelf(setup: Setup, s: State)
    ensures Leads(setup, s, s)
  {
    assert IsPath(setup, [s]);
  }

  lemma LeadsOn(setup: Setup, s0: State, s: State, step: Step)
    requires Leads(setup, s0, s) && Enabled(setup, s, step)
    ensures Leads(setup, s0, Apply(setup, s, step))
  {
    hide Enabled, Apply;
    var s' := Apply(setup, s, step);
    var path :| IsPath(setup, path) && path[0] == s0 && path[|path| - 1] == s;
    var longer := path + [s'];
    assert Next(setup, s, s');
    forall i | 0 <= i < |longer| - 1
      ensures Next(setup, longer[i], longer[i + 1])
    {
      assert i < |path| - 1 ==> Next(setup, path[i], path[i + 1]);
    }
    assert IsPath(setup, longer) && longer[|longer| - 1] == s';
  }

  lemma {:induction false} DoomedPath(setup: Setup, path: seq<State>, i: nat)
    requires IsPath(setup, path) && i < |path| && Reachable(setup, path[0]) && Doomed(path[0])
    ensures Reachable(setup, path[i]) && Doomed(path[i])
    ensures path[i].gateway == path[0].gateway && Ahead(path[i]) == Ahead(path[0])
  {
    hide Enabled, Apply, Reachable, Doomed, Ahead, Tidy, RegionSafety.Inv;
    if i == 0 {
    } else {
      DoomedPath(setup, path, i - 1);
      var s := path[i - 1];
      assert Next(setup, s, path[i - 1 + 1]);
      var step :| Enabled(setup, s, step) && path[i] == Apply(setup, s, step);
      ReachableTidy(setup, s);
      ReachableStep(setup, s, step);
      DoomedStep(setup, s, step);
    }
  }

  // -------- Hope is kept --------

  /** A step of the dispatcher's sends, or of a client or caller, that gives nobody a new message for the gateway. */
  ghost predicate Harmless(step: Step) {
    match step
    case DispatcherSend => true
    case ClientReceive(_) => true
    case ClientSend(_, reply) => !AfterReply(reply).Handing?
    case ClientRest(_) => true
    case ClientHand(_) => true
    case ApiSend(_) => true
    case _ => false
  }

  lemma HandingBefore(setup: Setup, s: State, step: Step, c: nat)
    requires Harmless(step) && Enabled(setup, s, step)
    requires step.DispatcherSend? ==> !(s.pending[0].ToRouter? && s.pending[0].chan == c)
    requires var s' := Apply(setup, s, step); c in s'.clients && s'.clients[c].phase.Handing?
    ensures c in s.clients && s.clients[c].phase.Handing?
    ensures |Apply(setup, s, step).clients[c].queue| <= |s.clients[c].queue|
  {
    hide Place, Leave, Granted;
  }

  lemma JammedBefore(setup: Setup, s: State, step: Step, c: nat)
    requires Tidy(s) && Busy(s) && Harmless(step) && Enabled(setup, s, step)
    requires step.DispatcherSend? ==> !(s.pending[0].ToRouter? && s.pending[0].chan == c)
    requires Jammed(Apply(setup, s, step), c)
    ensures Jammed(s, c)
  {
    hide Apply, Enabled, Tidy, Granted;
    HandingBefore(setup, s, step, c);
    GrantsKept(setup, s, step, ClientOf(c));
  }

  lemma PendingBefore(setup: Setup, s: State, step: Step, j: nat) returns (i: nat)
    requires Harmless(step) && Enabled(setup, s, step) && j < |Apply(setup, s, step).pending|
    ensures i < |s.pending| && s.pending[i] == Apply(setup, s, step).pending[j]
    ensures i == if step.DispatcherSend? then j + 1 else j
  {
    hide Place, Leave, Granted;
    i := if step.DispatcherSend? then j + 1 else j;
  }

  lemma HopeKept(setup: Setup, s: State, step: Step)
    requires Tidy(s) && RegionSafety.Inv(s) && Busy(s) && Harmless(step) && Enabled(setup, s, step)
    requires !SomeHopeless(s)
    ensures !SomeHopeless(Apply(setup, s, step))
  {
    hide Apply, Enabled, Granted, GatewayLined, DispatcherLined, Bounded, RegionSafety.Inv, Jammed;
    TidyStep(setup, s, step);
    var s' := Apply(setup, s, step);
    forall j | 0 <= j < |s'.pending|
      ensures !Hopeless(s', s'.pending[j])
    {
      var i := PendingBefore(setup, s, step, j);
      assert !Hopeless(s, s.pending[i]);
      if s'.pending[j].ToRouter? {
        if Jammed(s', s'.pending[j].chan) {
          JammedBefore(setup, s, step, s'.pending[j].chan);
        }
      } else {
        GrantsKept(setup, s, step, DispatcherTask);
      }
    }
  }

  // -------- A gateway that is not doomed comes nearer to its turn --------

  /** A reachable state that `s0` leads to, with the gateway in the same send and as far from its turn. */
  ghost predicate Onward(setup: Setup, s0: State, s: State) {
    && Reachable(setup, s) && Leads(setup, s0, s)
    && s.gateway == s0.gateway && s.gateway.SendingUplink? && Ahead(s) == Ahead(s0) && GatewayWaits(s)
  }

  lemma Onwards(setup: Setup, s0: State, s: State, step: Step) returns (s': State)
    requires Onward(setup, s0, s) && Enabled(setup, s, step) && !TakesMessage(step)
    ensures s' == Apply(setup, s, step) && Onward(setup, s0, s')
    ensures Harmless(step) && !SomeHopeless(s) ==> !SomeHopeless(s')
  {
    hide Enabled, Apply, Reachable, Leads, Tidy, RegionSafety.Inv, WaitsFor, SomeHopeless, Ahead;
    s' := Apply(setup, s, step);
    ReachableStep(setup, s, step);
    LeadsOn(setup, s0, s, step);
    ReachableTidy(setup, s);
    ReachableTidy(setup, s');
    UplinkTurn(setup, s, step);
    WaitsWhileBehind(s);
    WaitsWhileBehind(s');
    if Harmless(step) && !SomeHopeless(s) {
      HopeKept(setup, s, step);
    }
  }

  /** A client that is at its select, or draining, makes room: its service does not answer. */
  lemma IdleMakesRoom(setup: Setup, s0: State, s: State, c: nat) returns (s': State)
    requires Onward(setup, s0, s) && !SomeHopeless(s) && c in s.clients && |s.clients[c].queue| == CLIENT_CAPACITY
    requires s.clients[c].phase.Idle? || s.clients[c].phase.Draining?
    ensures Onward(setup, s0, s') && !SomeHopeless(s') && s'.pending == s.pending
    ensures c in s'.clients && |s'.clients[c].queue| < CLIENT_CAPACITY
  {
    hide Onward, SomeHopeless, Place, Leave;
    var s1 := s;
    if s.clients[c].phase.Draining? {
      if s.clients[c].store == [] {
        s1 := Onwards(setup, s0, s, ClientRest(c));
      } else {
        s1 := Onwards(setup, s0, s, ClientSend(c, Client.RouteFailed));
      }
    }
    s' := Onwards(setup, s0, s1, ClientReceive(c));
  }

  lemma ClientMakesRoom(setup: Setup, s0: State, s: State, c: nat) returns (s': State)
    requires Onward(setup, s0, s) && !SomeHopeless(s) && c in s.clients && |s.clients[c].queue| == CLIENT_CAPACITY
    requires !s.clients[c].phase.Stopped? && !Jammed(s, c)
    ensures Onward(setup, s0, s') && !SomeHopeless(s') && s'.pending == s.pending
    ensures c in s'.clients && |s'.clients[c].queue| < CLIENT_CAPACITY
  {
    hide Onward, SomeHopeless, Place, Leave;
    var s1 := s;
    if s.clients[c].phase.Handing? {
      s1 := Onwards(setup, s0, s, ClientHand(c));
    }
    hide Enabled, Apply;
    s' := IdleMakesRoom(setup, s0, s1, c);
  }

  lemma FirstClient(setup: Setup, s: State)
    requires Reachable(setup, s) && s.pending != [] && s.pending[0].ToRouter? && !HasRoom(s, s.pending[0])
    ensures var c := s.pending[0].chan;
            c in s.clients && |s.clients[c].queue| == CLIENT_CAPACITY && !s.clients[c].phase.Stopped?
  {
    hide RegionSafety.LineOk, RegionSafety.PendingFor, Session.Sound, GatewayLined, DispatcherLined, Distinct, Place;
    ReachableTidy(setup, s);
    assert RegionSafety.SendOk(s, s.pending[0]);
    var c, r := s.pending[0].chan, s.dispatcher.core.region;
    assert RegionSafety.ClientOk(s.clients[c], RegionSafety.PendingFor(c, s.pending, r), r);
  }

  /** The dispatcher's next send goes out, after its receiver has made room. */
  lemma OneSent(setup: Setup, s0: State, s: State) returns (s': State)
    requires Onward(setup, s0, s) && !SomeHopeless(s) && s.pending != []
    ensures Onward(setup, s0, s') && !SomeHopeless(s') && s'.pending == s.pending[1..]
  {
    hide Reachable, Leads, Place, Leave, WaitsFor, Ahead;
    assert !Hopeless(s, s.pending[0]);
    var s1 := s;
    if !HasRoom(s, s.pending[0]) {
      FirstClient(setup, s);
      s1 := ClientMakesRoom(setup, s0, s, s.pending[0].chan);
    }
    s' := Onwards(setup, s0, s1, DispatcherSend);
  }

  lemma {:induction false} AllSent(setup: Setup, s0: State, s: State) returns (s': State)
    requires Onward(setup, s0, s) && !SomeHopeless(s)
    ensures Onward(setup, s0, s') && s'.pending == []
    decreases |s.pending|
  {
    hide Onward, SomeHopeless;
    if s.pending == [] {
      s' := s;
    } else {
      var s1 := OneSent(setup, s0, s);
      s' := AllSent(setup, s0, s1);
    }
  }

  lemma SendsExist(setup: Setup, s: State, packet: Packet, received: nat) returns (sends: seq<Send>)
    requires RegionSafety.Inv(s)
    ensures Session.SendsFor(s.dispatcher, setup.config, Session.UplinkArrived(packet, received), sends)
  {
    var table := s.dispatcher.core.table;
    TableConsistent(s.dispatcher.log.history);
    hide RegionSafety.RegionInv;
    var order := OrderExists(table, TargetKeys(table.routers, setup.config, packet));
    sends := Broadcast(order, Uplink(packet, received));
  }

  /** A caller to whom a slot is promised uses it, so that the dispatcher has a message to take. */
  lemma MessageThere(setup: Setup, s0: State, s: State) returns (s': State)
    requires Onward(setup, s0, s) && s.pending == []
    ensures Onward(setup, s0, s') && s'.pending == [] && s'.dispatcherQueue != []
  {
    hide Reachable, Leads, Leave, RegionSafety.Inv;
    s' := s;
    if s.dispatcherQueue == [] {
      ReachableTidy(setup, s);
      var first := s.dispatcherLine[0];
      assert first in s.dispatcherLine && first.ApiCaller?;
      hide Onward, Tidy;
      s' := Onwards(setup, s0, s, ApiSend(first.id));
    }
  }

  /** A dispatcher with nothing to send leaves its setup if it has to. */
  lemma SetupLeft(setup: Setup, s0: State, s: State) returns (s': State)
    requires Onward(setup, s0, s) && s.pending == [] && s.dispatcherQueue != []
    ensures Onward(setup, s0, s') && s'.pending == [] && s'.dispatcherQueue != [] && !s'.dispatcher.phase.Selecting?
  {
    hide Onward, Place, Leave;
    s' := s;
    if s.dispatcher.phase.Selecting? {
      s' := Onwards(setup, s0, s, DispatcherEvent(Session.SetupFailed(false), []));
    }
  }

  lemma MessageEvent(setup: Setup, s: State) returns (step: Step)
    requires RegionSafety.Inv(s) && s.pending == [] && s.dispatcherQueue != [] && !s.dispatcher.phase.Selecting?
    ensures Enabled(setup, s, step) && TakesMessage(step)
  {
    hide Place, Leave;
    if s.dispatcherQueue[0].QueryMessage? {
      step := DispatcherEvent(Session.QueryArrived, []);
    } else {
      hide RegionSafety.Inv, Session.SendsFor;
      var packet, received := s.dispatcherQueue[0].packet, s.dispatcherQueue[0].received;
      var sends := SendsExist(setup, s, packet, received);
      step := DispatcherEvent(Session.UplinkArrived(packet, received), sends);
    }
  }

  lemma UplinkNearer(setup: Setup, s: State) returns (s': State)
    requires Reachable(setup, s) && s.gateway.SendingUplink? && GatewayWaits(s) && !SomeHopeless(s)
    ensures Leads(setup, s, s') && Reachable(setup, s') && s'.gateway == s.gateway && Ahead(s') == Ahead(s) - 1
  {
    hide Reachable, Leads, Tidy, RegionSafety.Inv, WaitsFor, SomeHopeless, Ahead, Enabled, Apply;
    LeadsToSelf(setup, s);
    var s1 := AllSent(setup, s, s);
    var s2 := MessageThere(setup, s, s1);
    var s3 := SetupLeft(setup, s, s2);
    ReachableTidy(setup, s3);
    var step := MessageEvent(setup, s3);
    UplinkTurn(setup, s3, step);
    ReachableStep(setup, s3, step);
    LeadsOn(setup, s, s3, step);
    s' := Apply(setup, s3, step);
  }

  lemma BeaconNearer(setup: Setup, s: State) returns (s': State)
    requires Reachable(setup, s) && !s.gateway.SendingUplink? && GatewayWaits(s) && !Doomed(s)
    ensures Leads(setup, s, s') && Reachable(setup, s') && s'.gateway == s.gateway && Ahead(s') == Ahead(s) - 1
  {
    hide Reachable, Leads, RegionSafety.Inv, Leave, Place;
    LeadsToSelf(setup, s);
    var s1 := s;
    if s.beaconer.Transmitting? {
      LeadsOn(setup, s, s, BeaconerSend);
      ReachableStep(setup, s, BeaconerSend);
      s1 := Apply(setup, s, BeaconerSend);
    }
    s' := Apply(setup, s1, BeaconerReceive);
    LeadsOn(setup, s, s1, BeaconerReceive);
    ReachableStep(setup, s1, BeaconerReceive);
  }

  /** A waiting gateway that is not doomed comes nearer to its turn, if the other tasks take the right steps. */
  lemma Recovers(setup: Setup, s: State) returns (s': State)
    requires Reachable(setup, s) && GatewayWaits(s) && !Doomed(s)
    ensures Leads(setup, s, s') && Reachable(setup, s') && s'.gateway == s.gateway && Ahead(s') == Ahead(s) - 1
  {
    if s.gateway.SendingUplink? {
      s' := UplinkNearer(setup, s);
    } else {
      s' := BeaconNearer(setup, s);
    }
  }

  /**
    In every reachable state in which the gateway waits: it stays in that send, no nearer to its turn, in all states
    to come, if and only if it is doomed. So a doomed gateway waits for ever, and one that is next in turn waits for
    ever only if it is doomed.
   */
  lemma WaitsForever(setup: Setup, s: State)
    requires Reachable(setup, s) && GatewayWaits(s)
    ensures Doomed(s) <==> forall s' | Leads(setup, s, s') :: s'.gateway == s.gateway && Ahead(s') >= Ahead(s)
    ensures Doomed(s) ==> forall s' | Leads(setup, s, s') :: GatewayWaits(s')
    ensures Ahead(s) == 1 ==> (Doomed(s) <==> forall s' | Leads(setup, s, s') :: GatewayWaits(s'))
  {
    hide Reachable, Enabled, Apply, Ahead, Tidy, RegionSafety.Inv, WaitsFor, SomeHopeless, Next;
    if Doomed(s) {
      forall s' | Leads(setup, s, s')
        ensures s'.gateway == s.gateway && Ahead(s') >= Ahead(s) && GatewayWaits(s')
      {
        var path :| IsPath(setup, path) && path[0] == s && path[|path| - 1] == s';
        DoomedPath(setup, path, |path| - 1);
      }
    } else {
      var s' := Recovers(setup, s);
      ReachableTidy(setup, s);
      ReachableTidy(setup, s');
      GatewayPhases(s);
      WaitsWhileBehind(s');
    }
  }

  /** The cycles of waits are doomed, with the gateway's channel full. */
  lemma StuckIsDoomed(s: State)
    requires Tidy(s) && IsStuck(s)
    ensures Doomed(s)
  {
    hide Place, Leave, NoRepeats, Distinct;
    if s.gateway.SendingUplink? {
      assert Hopeless(s, s.pending[0]);
    }
  }
}
