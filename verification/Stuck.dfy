/** When a chain of waits can never be resolved. */
module Stuck {
  import opened Wrappers
  import opened Lines
  import Client
  import Session
  import opened System
  import RegionSafety
  import opened Waiting

  /** Who takes a step. */
  function Owner(step: Step): Task {
    match step
    case DispatcherEvent(_, _) => DispatcherTask
    case DispatcherSend => DispatcherTask
    case RadioPacket(_, _) => GatewayTask
    case GatewaySend => GatewayTask
    case GatewayReceive => GatewayTask
    case GatewayRemember => GatewayTask
    case BeaconTick(_) => BeaconerTask
    case BeaconerSend => BeaconerTask
    case BeaconerReceive => BeaconerTask
    case ClientReceive(c) => ClientOf(c)
    case ClientSend(c, _) => ClientOf(c)
    case ClientRest(c) => ClientOf(c)
    case ClientHand(c) => ClientOf(c)
    case ApiQuery(id) => ApiCaller(id)
    case ApiSend(id) => ApiCaller(id)
  }

  ghost predicate CanStep(setup: Setup, s: State, t: Task) {
    exists step :: Owner(step) == t && Enabled(setup, s, step)
  }

  /** A waiting task can do nothing else. */
  lemma WaitingCannotStep(setup: Setup, s: State, t: Task)
    requires WaitsFor(s, t).Some?
    ensures !CanStep(setup, s, t)
  {
    hide Place, Leave, Session.SendsFor;
  }

  // -------- Whoever is waited for and does not wait can step --------

  /** Everyone in a line to whom a slot is promised can use it. */
  lemma GrantedCanStep(setup: Setup, s: State, t: Task)
    requires Tidy(s)
    requires (t in s.gatewayLine && GatewayGrants(s, t)) || (t in s.dispatcherLine && DispatcherGrants(s, t))
    ensures CanStep(setup, s, t)
  {
    hide Granted, Bounded, Distinct, NoRepeats;
    assert t in s.gatewayLine ==> AsksGateway(s, t);
    match t
    case DispatcherTask => assert Enabled(setup, s, DispatcherSend);
    case GatewayTask => assert Enabled(setup, s, GatewaySend);
    case BeaconerTask => assert Enabled(setup, s, BeaconerSend);
    case ClientOf(c) => assert Enabled(setup, s, ClientHand(c));
    case ApiCaller(id) => assert Enabled(setup, s, ApiSend(id));
  }

  lemma DispatcherCanStep(setup: Setup, s: State)
    requires WaitsFor(s, DispatcherTask).None?
    ensures CanStep(setup, s, DispatcherTask)
  {
    hide Place, Leave;
    if s.pending != [] {
      assert Enabled(setup, s, DispatcherSend);
    } else {
      var e := if s.dispatcher.phase.Selecting? then Session.SetupFailed(false)
               else if s.dispatcher.phase.InSession? then Session.SessionEnded else Session.PauseOver;
      assert Enabled(setup, s, DispatcherEvent(e, []));
    }
  }

  lemma GatewayCanStep(setup: Setup, s: State)
    requires WaitsFor(s, GatewayTask).None? && s.gatewayQueue != []
    ensures CanStep(setup, s, GatewayTask)
  {
    hide Place, Leave;
    var step := if s.gateway.Listening? then GatewayReceive
                else if s.gateway.Remembering? then GatewayRemember else GatewaySend;
    assert Enabled(setup, s, step);
  }

  lemma BeaconerCanStep(setup: Setup, s: State)
    requires WaitsFor(s, BeaconerTask).None? && s.beaconerQueue != []
    ensures CanStep(setup, s, BeaconerTask)
  {
    hide Place, Leave;
    var step := if s.beaconer.AtSelect? then BeaconerReceive else BeaconerSend;
    assert Enabled(setup, s, step);
  }

  lemma ClientCanStep(setup: Setup, s: State, c: nat)
    requires RegionSafety.Inv(s) && c in s.clients && s.clients[c].queue != [] && WaitsFor(s, ClientOf(c)).None?
    ensures CanStep(setup, s, ClientOf(c))
  {
    hide Place, Leave, RegionSafety.LineOk, RegionSafety.PendingFor;
    var t, r := s.clients[c], s.dispatcher.core.region;
    assert RegionSafety.ClientOk(t, RegionSafety.PendingFor(c, s.pending, r), r);
    hide RegionSafety.Inv;
    var step := if t.phase.Idle? then ClientReceive(c)
                else if t.phase.Handing? then ClientHand(c)
                else if t.store == [] then ClientRest(c) else ClientSend(c, Client.NoMessage);
    assert Enabled(setup, s, step);
  }

  /** A task that is waited for is the receiver of a full channel, or the first in line for a free slot. */
  ghost predicate IsHolder(s: State, t: Task) {
    match t
    case DispatcherTask => |s.dispatcherQueue| >= DISPATCHER_CAPACITY || GatewayGrants(s, t)
    case GatewayTask => GatewayFull(s) || DispatcherGrants(s, t)
    case BeaconerTask => |s.beaconerQueue| >= BEACONER_CAPACITY || GatewayGrants(s, t)
    case ClientOf(c) => (c in s.clients && |s.clients[c].queue| >= CLIENT_CAPACITY) || GatewayGrants(s, t)
    case ApiCaller(_) => DispatcherGrants(s, t)
  }

  lemma HolderHolds(line: seq<Task>, used: nat, capacity: nat, receiver: Task)
    requires line != []
    ensures var h := Holder(line, used, capacity, receiver);
            (h == receiver && used >= capacity) || Granted(line, used, capacity, h)
  {
  }

  lemma AwaitedHolds(s: State, u: Task, t: Task)
    requires Tidy(s) && RegionSafety.Inv(s) && WaitsFor(s, u) == Some(t)
    ensures IsHolder(s, t)
  {
    hide Place, Leave, Granted, Holder, Bounded, Distinct, NoRepeats, RegionSafety.RegionInv, Session.Sound;
    if AsksGateway(s, u) {
      assert u in s.gatewayLine;
      HolderHolds(s.gatewayLine, |s.gatewayQueue|, GATEWAY_CAPACITY, GatewayTask);
      if GatewayGrants(s, t) {
        GatewayLineKinds(s, t);
      }
    } else if u.DispatcherTask? {
      assert RegionSafety.SendOk(s, s.pending[0]);
    } else if u.ApiCaller? || s.gateway.SendingUplink? {
      assert s.dispatcherLine != [];
      HolderHolds(s.dispatcherLine, |s.dispatcherQueue|, DISPATCHER_CAPACITY, DispatcherTask);
      if DispatcherGrants(s, t) {
        DispatcherLineKinds(s, t);
      }
    }
  }

  lemma GatewayLineKinds(s: State, t: Task)
    requires GatewayLined(s) && GatewayGrants(s, t)
    ensures !t.GatewayTask? && !t.ApiCaller?
  {
    assert AsksGateway(s, t);
  }

  lemma DispatcherLineKinds(s: State, t: Task)
    requires DispatcherLined(s) && DispatcherGrants(s, t)
    ensures t.GatewayTask? || t.ApiCaller?
  {
    assert t in s.dispatcherLine;
  }

  /** A task that is waited for, and does not wait itself, can step. */
  lemma AwaitedCanStep(setup: Setup, s: State, u: Task, t: Task)
    requires Tidy(s) && RegionSafety.Inv(s) && WaitsFor(s, u) == Some(t) && WaitsFor(s, t).None?
    ensures CanStep(setup, s, t)
  {
    hide CanStep, RegionSafety.Inv, Tidy, Place, Leave, WaitsFor;
    AwaitedHolds(s, u, t);
    if GatewayGrants(s, t) || DispatcherGrants(s, t) {
      GrantedCanStep(setup, s, t);
    } else {
      match t
      case DispatcherTask => DispatcherCanStep(setup, s);
      case GatewayTask => GatewayCanStep(setup, s);
      case BeaconerTask => BeaconerCanStep(setup, s);
      case ClientOf(c) => ClientCanStep(setup, s, c);
    }
  }

  // -------- Chains of waits --------

  /** Task `t` waits, and so does the one it waits for, over `n` further links. */
  ghost predicate AllWait(s: State, t: Task, n: nat)
    decreases n
  {
    WaitsFor(s, t).Some? && (n > 0 ==> AllWait(s, WaitsFor(s, t).value, n - 1))
  }

  /** The gateway and the beaconer wait for each other, or the gateway and the dispatcher do, perhaps over a client. */
  ghost predicate IsStuck(s: State) {
    GatewayFull(s) &&
    match s.gateway
    case SendingUplink(_, _) =>
      |s.dispatcherQueue| >= DISPATCHER_CAPACITY &&
      (match WaitsFor(s, DispatcherTask)
       case Some(GatewayTask) => true
       case Some(ClientOf(c)) => c in s.clients && s.clients[c].phase.Handing?
       case _ => false)
    case SendingBeacon(_) => |s.beaconerQueue| >= BEACONER_CAPACITY && s.beaconer.Transmitting?
    case Forwarding(_) => |s.beaconerQueue| >= BEACONER_CAPACITY && s.beaconer.Transmitting?
    case _ => false
  }

  lemma GrantedDoesNotWait(s: State, t: Task)
    requires Tidy(s) && (GatewayGrants(s, t) || DispatcherGrants(s, t))
    ensures WaitsFor(s, t).None?
  {
    hide Place, Leave, NoRepeats, Bounded, Distinct;
    if GatewayGrants(s, t) {
      assert AsksGateway(s, t);
    } else {
      assert t in s.dispatcherLine;
      assert t !in s.gatewayLine;
    }
  }

  /** Someone who waits and is waited for is the receiver of a full channel, and has one of its senders waiting. */
  lemma NextWait(s: State, u: Task, t: Task)
    requires Tidy(s) && RegionSafety.Inv(s) && WaitsFor(s, u) == Some(t) && WaitsFor(s, t).Some?
    ensures match t
            case DispatcherTask => |s.dispatcherQueue| >= DISPATCHER_CAPACITY && (u.GatewayTask? || u.ApiCaller?)
            case GatewayTask => GatewayFull(s) && (u.DispatcherTask? || u.BeaconerTask? || u.ClientOf?)
            case BeaconerTask => |s.beaconerQueue| >= BEACONER_CAPACITY && s.beaconer.Transmitting? && u.GatewayTask?
            case ClientOf(c) => c in s.clients && s.clients[c].phase.Handing? && u.DispatcherTask?
            case ApiCaller(_) => false
  {
    if GatewayGrants(s, t) || DispatcherGrants(s, t) {
      GrantedDoesNotWait(s, t);
    } else {
      AwaitedHolds(s, u, t);
      WaitKinds(s, u, t);
    }
  }

  lemma WaitKinds(s: State, u: Task, t: Task)
    requires Tidy(s) && WaitsFor(s, u) == Some(t) && !GatewayGrants(s, t) && !DispatcherGrants(s, t)
    requires IsHolder(s, t) && WaitsFor(s, t).Some?
    ensures match t
            case DispatcherTask => u.GatewayTask? || u.ApiCaller?
            case GatewayTask => u.DispatcherTask? || u.BeaconerTask? || u.ClientOf?
            case BeaconerTask => u.GatewayTask? && s.beaconer.Transmitting?
            case ClientOf(c) => u.DispatcherTask? && c in s.clients && s.clients[c].phase.Handing?
            case ApiCaller(_) => true
  {
    hide Place, Leave, Granted, Bounded, Distinct, NoRepeats, Holder;
    if AsksGateway(s, u) {
      assert u in s.gatewayLine;
      HolderHolds(s.gatewayLine, |s.gatewayQueue|, GATEWAY_CAPACITY, GatewayTask);
    } else if u.ApiCaller? || (u.GatewayTask? && s.gateway.SendingUplink?) {
      assert s.dispatcherLine != [];
      HolderHolds(s.dispatcherLine, |s.dispatcherQueue|, DISPATCHER_CAPACITY, DispatcherTask);
    }
  }

  /**
    If a task waits and every task on its chain of waits does, then the gateway's channel is full and the gateway
    itself waits for the dispatcher or the beaconer in a cycle.
   */
  lemma HopelessChain(s: State, t: Task)
    requires Tidy(s) && RegionSafety.Inv(s) && AllWait(s, t, 4)
    ensures IsStuck(s)
  {
    hide Tidy, RegionSafety.Inv, WaitsFor;
    GatewayWaitKinds(s);
    var t1 := WaitsFor(s, t).value;
    assert AllWait(s, t1, 3);
    var t2 := WaitsFor(s, t1).value;
    assert AllWait(s, t2, 2);
    var t3 := WaitsFor(s, t2).value;
    assert AllWait(s, t3, 1);
    var t4 := WaitsFor(s, t3).value;
    assert AllWait(s, t4, 0);
    NextWait(s, t, t1);
    NextWait(s, t1, t2);
    NextWait(s, t2, t3);
    NextWait(s, t3, t4);
  }

  lemma GatewayWaitKinds(s: State)
    requires Tidy(s)
    ensures WaitsFor(s, GatewayTask) == Some(DispatcherTask) ==> s.gateway.SendingUplink?
    ensures WaitsFor(s, GatewayTask) == Some(BeaconerTask) ==> s.gateway.SendingBeacon? || s.gateway.Forwarding?
    ensures WaitsFor(s, GatewayTask).Some? ==>
            s.gateway.SendingUplink? || s.gateway.SendingBeacon? || s.gateway.Forwarding?
  {
    hide Place, Leave, NoRepeats, Bounded, Distinct;
    if s.dispatcherLine != [] {
      assert s.dispatcherLine[0] in s.dispatcherLine;
    }
  }

  lemma StuckCycle(s: State)
    requires IsStuck(s)
    ensures var w := WaitsFor(s, GatewayTask);
            && w.Some? && WaitsFor(s, w.value).Some?
            && (WaitsFor(s, w.value) == Some(GatewayTask)
                || WaitsFor(s, WaitsFor(s, w.value).value) == Some(GatewayTask))
  {
    hide Place, Leave;
  }

  /** Conversely, a stuck gateway's chain of waits never ends. */
  lemma {:induction false} StuckChain(s: State, n: nat)
    requires IsStuck(s)
    ensures AllWait(s, GatewayTask, n)
  {
    hide WaitsFor, IsStuck;
    StuckCycle(s);
    var t1 := WaitsFor(s, GatewayTask).value;
    var t2 := WaitsFor(s, t1).value;
    if n == 0 {
    } else if n == 1 {
      assert AllWait(s, t1, 0);
    } else if t2.GatewayTask? {
      StuckChain(s, n - 2);
      assert AllWait(s, t1, n - 1);
    } else {
      if n > 2 {
        StuckChain(s, n - 3);
      }
      assert AllWait(s, t2, n - 2);
      assert AllWait(s, t1, n - 1);
    }
  }

  /** `u` is at most `n` waits away from `t`. */
  ghost predicate OnChain(s: State, t: Task, u: Task, n: nat)
    decreases n
  {
    t == u || (n > 0 && WaitsFor(s, t).Some? && OnChain(s, WaitsFor(s, t).value, u, n - 1))
  }

  /** The end of a chain of waits can step. */
  lemma {:induction false} ChainEnd(setup: Setup, s: State, t: Task, n: nat) returns (u: Task)
    requires Tidy(s) && RegionSafety.Inv(s) && WaitsFor(s, t).Some? && !AllWait(s, t, n)
    ensures CanStep(setup, s, u) && OnChain(s, t, u, n)
    decreases n
  {
    hide RegionSafety.Inv, CanStep, WaitsFor, Tidy;
    var v := WaitsFor(s, t).value;
    if WaitsFor(s, v).None? {
      AwaitedCanStep(setup, s, t, v);
      u := v;
    } else {
      u := ChainEnd(setup, s, v, n - 1);
    }
  }

  /**
    In a reachable state, whenever a task waits, following the waits leads to a task that can step, unless the gateway
    is stuck.
   */
  lemma WaitIsServed(setup: Setup, s: State, t: Task) returns (u: Task)
    requires Reachable(setup, s) && WaitsFor(s, t).Some? && !IsStuck(s)
    ensures CanStep(setup, s, u) && OnChain(s, t, u, 4)
  {
    hide RegionSafety.Inv, CanStep, WaitsFor, Tidy, IsStuck;
    ReachableTidy(setup, s);
    if AllWait(s, t, 4) {
      HopelessChain(s, t);
    }
    u := ChainEnd(setup, s, t, 4);
  }

  // -------- A stuck gateway stays stuck --------

  lemma StuckStep(setup: Setup, s: State, step: Step)
    requires IsStuck(s) && Enabled(setup, s, step)
    ensures IsStuck(Apply(setup, s, step)) && Apply(setup, s, step).gateway == s.gateway
    ensures Apply(setup, s, step).gatewayQueue == s.gatewayQueue
  {
    hide Place, Leave, OnRadio, TakenBy, Session.Step, Session.SendsFor;
  }

  /** From a stuck state on, whatever else happens, the gateway stays in the same send for ever. */
  lemma {:induction false} StuckForever(setup: Setup, run: seq<State>, i: nat, j: nat)
    requires IsRun(setup, run) && i <= j < |run| && IsStuck(run[i])
    ensures IsStuck(run[j]) && run[j].gateway == run[i].gateway && run[j].gatewayQueue == run[i].gatewayQueue
  {
    hide IsStuck, Enabled, Apply, Initial;
    if i == j {
    } else {
      StuckForever(setup, run, i, j - 1);
      assert Next(setup, run[j - 1], run[j - 1 + 1]);
      var step :| Enabled(setup, run[j - 1], step) && run[j] == Apply(setup, run[j - 1], step);
      StuckStep(setup, run[j - 1], step);
    }
  }
}
