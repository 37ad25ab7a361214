/** Which task waits for which, and what every run keeps about the channels and their lines of senders. */
module Waiting {
  import opened Wrappers
  import opened Lines
  import opened Dispatcher
  import Session
  import opened System
  import RegionSafety

  // -------- Waiting --------

  predicate GatewayFull(s: State) {
    |s.gatewayQueue| >= GATEWAY_CAPACITY
  }

  /**
    Whom a sender waits for that has no promise of a slot: the receiver of the channel if it is full, and otherwise
    the first in line, to whom a free slot is promised.
   */
  function Holder(line: seq<Task>, used: nat, capacity: nat, receiver: Task): Task {
    if used < capacity && line != [] then line[0] else receiver
  }

  function GatewayHolder(s: State): Task {
    Holder(s.gatewayLine, |s.gatewayQueue|, GATEWAY_CAPACITY, GatewayTask)
  }

  function DispatcherHolder(s: State): Task {
    Holder(s.dispatcherLine, |s.dispatcherQueue|, DISPATCHER_CAPACITY, DispatcherTask)
  }

  /** Task `t` has a message for the gateway and cannot do anything before the message is on the channel. */
  predicate AsksGateway(s: State, t: Task) {
    match t
    case DispatcherTask => s.pending != [] && s.pending[0].ToGateway?
    case BeaconerTask => s.beaconer.Transmitting?
    case ClientOf(c) => c in s.clients && s.clients[c].phase.Handing?
    case _ => false
  }

  /** Whom a task waits for, if it is sending on a channel and has no promise of a slot. */
  function WaitsFor(s: State, t: Task): Option<Task> {
    if AsksGateway(s, t) then (if GatewayGrants(s, t) then None else Some(GatewayHolder(s)))
    else match t
      case DispatcherTask =>
        if s.pending != [] && !HasRoom(s, s.pending[0]) then Some(ClientOf(s.pending[0].chan)) else None
      case GatewayTask =>
        (match s.gateway
         case SendingUplink(_, _) => if DispatcherGrants(s, t) then None else Some(DispatcherHolder(s))
         case SendingBeacon(_) => if |s.beaconerQueue| >= BEACONER_CAPACITY then Some(BeaconerTask) else None
         case Forwarding(_) => if |s.beaconerQueue| >= BEACONER_CAPACITY then Some(BeaconerTask) else None
         case _ => None)
      case ApiCaller(_) =>
        if t in s.dispatcherLine && !DispatcherGrants(s, t) then Some(DispatcherHolder(s)) else None
      case _ => None
  }

  // -------- What every run keeps --------

  /** No client is sent to twice for one event, and a message to the gateway comes first. */
  ghost predicate Distinct(pending: seq<Send>) {
    && (forall i, j | 0 <= i < j < |pending| && pending[i].ToRouter? && pending[j].ToRouter? ::
          pending[i].chan != pending[j].chan)
    && forall i | 0 < i < |pending| :: pending[i].ToRouter?
  }

  /** In the gateway's line are exactly the tasks with a message for it, each once. */
  ghost predicate GatewayLined(s: State) {
    NoRepeats(s.gatewayLine) && forall t :: t in s.gatewayLine <==> AsksGateway(s, t)
  }

  /** In the dispatcher's line are callers of the local API, each once, and the gateway while it has an uplink. */
  ghost predicate DispatcherLined(s: State) {
    && NoRepeats(s.dispatcherLine) && (GatewayTask in s.dispatcherLine <==> s.gateway.SendingUplink?)
    && forall t | t in s.dispatcherLine :: t.GatewayTask? || t.ApiCaller?
  }

  /** Channels keep their bounds. */
  ghost predicate Bounded(s: State) {
    && |s.gatewayQueue| <= GATEWAY_CAPACITY && |s.dispatcherQueue| <= DISPATCHER_CAPACITY
    && |s.beaconerQueue| <= BEACONER_CAPACITY
    && forall c | c in s.clients :: |s.clients[c].queue| <= CLIENT_CAPACITY
  }

  ghost predicate Tidy(s: State) {
    GatewayLined(s) && DispatcherLined(s) && Bounded(s) && Distinct(s.pending)
  }

  // -------- Sends --------

  lemma EventDistinct(setup: Setup, s: Session.State, e: Session.Event, sends: seq<Send>)
    requires Session.Sound(s) && Session.Enabled(s, e) && Session.SendsFor(s, setup.config, e, sends)
    ensures Distinct(sends)
  {
    hide Session.Sound;
    var routers := s.core.table.routers;
    match e
    case RegionUpdate(u) =>
      if RegionAccepted(s.core, u) {
        var order :| OrderOf(order, routers, routers.Keys)
                  && sends == [ToGateway(u.params.value)] + Broadcast(order, RegionChanged(u.params.value.region));
      }
    case RoutingUpdate(u, starts) =>
      RegionSafety.RoutingSendsNothing(setup, s, e, sends);
    case UplinkArrived(packet, received) =>
      var order :| OrderOf(order, routers, TargetKeys(routers, setup.config, packet))
                && sends == Broadcast(order, Uplink(packet, received));
    case _ =>
  }

  lemma DistinctStep(setup: Setup, s: State, step: Step)
    requires Session.Sound(s.dispatcher) && Distinct(s.pending) && Enabled(setup, s, step)
    ensures Distinct(Apply(setup, s, step).pending)
  {
    if step.DispatcherEvent? {
      EventDistinct(setup, s.dispatcher, step.event, step.sends);
      hide Session.SendsFor, Session.Step;
    }
    hide Session.Sound;
  }

  // -------- Lines --------

  /** A task joins the gateway's line. */
  lemma GatewayJoin(s: State, s': State, x: Task)
    requires GatewayLined(s) && !AsksGateway(s, x) && AsksGateway(s', x)
    requires forall t | t != x :: AsksGateway(s', t) == AsksGateway(s, t)
    requires s'.gatewayLine == s.gatewayLine + [x]
    ensures GatewayLined(s')
  {
    NoRepeatsJoin(s.gatewayLine, x);
  }

  /** A task leaves the gateway's line. */
  lemma GatewayLeave(s: State, s': State, x: Task)
    requires GatewayLined(s) && AsksGateway(s, x) && !AsksGateway(s', x)
    requires forall t | t != x :: AsksGateway(s', t) == AsksGateway(s, t)
    requires s'.gatewayLine == Leave(s.gatewayLine, x)
    ensures GatewayLined(s')
  {
    LeaveMembers(s.gatewayLine, x);
    forall t
      ensures t in s'.gatewayLine <==> AsksGateway(s', t)
    {
      assert t in s.gatewayLine <==> AsksGateway(s, t);
    }
  }

  lemma GatewaySame(s: State, s': State)
    requires GatewayLined(s) && forall t :: AsksGateway(s', t) == AsksGateway(s, t)
    requires s'.gatewayLine == s.gatewayLine
    ensures GatewayLined(s')
  {
  }

  datatype Move<T> = Stay | Join(x: T) | Go(x: T)

  /** What a step does to the gateway's line. */
  ghost function GatewayMove(s: State, step: Step): Move<Task> {
    match step
    case DispatcherEvent(_, sends) => if Joining(sends) == [] then Stay else Join(DispatcherTask)
    case DispatcherSend => if s.pending != [] && s.pending[0].ToGateway? then Go(DispatcherTask) else Stay
    case BeaconTick(_) => Join(BeaconerTask)
    case BeaconerSend => Go(BeaconerTask)
    case ClientSend(c, reply) => if AfterReply(reply).Handing? then Join(ClientOf(c)) else Stay
    case ClientHand(c) => Go(ClientOf(c))
    case _ => Stay
  }

  ghost function Moved<T>(line: seq<T>, m: Move<T>): seq<T> {
    match m
    case Stay => line
    case Join(x) => line + [x]
    case Go(x) => Leave(line, x)
  }

  /** The step moves the line as stated, and the move is that of a task with a message for the gateway. */
  ghost predicate MovesGateway(s: State, s': State, m: Move<Task>) {
    && s'.gatewayLine == Moved(s.gatewayLine, m)
    && (m.Join? ==> !AsksGateway(s, m.x) && AsksGateway(s', m.x))
    && (m.Go? ==> AsksGateway(s, m.x) && !AsksGateway(s', m.x) && GatewayGrants(s, m.x))
    && forall t | m.Stay? || t != m.x :: AsksGateway(s', t) == AsksGateway(s, t)
  }

  lemma EventMoves(setup: Setup, s: State, step: Step)
    requires step.DispatcherEvent? && Enabled(setup, s, step)
    ensures MovesGateway(s, Apply(setup, s, step), GatewayMove(s, step))
  {
    hide Leave, Granted, TakenBy, Session.Step, Session.SendsFor, Session.Enabled;
  }

  lemma SendMoves(setup: Setup, s: State)
    requires Distinct(s.pending) && Enabled(setup, s, DispatcherSend)
    ensures MovesGateway(s, Apply(setup, s, DispatcherSend), GatewayMove(s, DispatcherSend))
  {
    hide Leave, Granted;
    if |s.pending| > 1 {
      assert s.pending[1..][0] == s.pending[1];
    }
  }

  lemma ClientMoves(setup: Setup, s: State, step: Step)
    requires step.ClientReceive? || step.ClientSend? || step.ClientRest? || step.ClientHand?
    requires Enabled(setup, s, step)
    ensures MovesGateway(s, Apply(setup, s, step), GatewayMove(s, step))
  {
    hide Leave, Granted;
  }

  lemma GatewayLineStep(setup: Setup, s: State, step: Step)
    requires Distinct(s.pending) && Enabled(setup, s, step)
    ensures MovesGateway(s, Apply(setup, s, step), GatewayMove(s, step))
  {
    hide Leave, Granted, OnRadio, TakenBy, Distinct;
    if step.DispatcherEvent? {
      EventMoves(setup, s, step);
    } else if step.DispatcherSend? {
      SendMoves(setup, s);
    } else if step.ClientReceive? || step.ClientSend? || step.ClientRest? || step.ClientHand? {
      ClientMoves(setup, s, step);
    }
  }

  lemma GatewayLinedStep(setup: Setup, s: State, step: Step)
    requires GatewayLined(s) && Distinct(s.pending) && Enabled(setup, s, step)
    ensures GatewayLined(Apply(setup, s, step))
  {
    hide Enabled, Apply, AsksGateway, GatewayMove, GatewayLined, Leave;
    GatewayLineStep(setup, s, step);
    var s', m := Apply(setup, s, step), GatewayMove(s, step);
    if m.Join? {
      GatewayJoin(s, s', m.x);
    } else if m.Go? {
      GatewayLeave(s, s', m.x);
    } else {
      GatewaySame(s, s');
    }
  }

  /** What a step does to the dispatcher's line. */
  ghost function DispatcherMove(s: State, step: Step): Move<Task> {
    match step
    case RadioPacket(rxpk, received) => if OnRadio(rxpk, received).SendingUplink? then Join(GatewayTask) else Stay
    case GatewaySend => if s.gateway.SendingUplink? then Go(GatewayTask) else Stay
    case ApiQuery(id) => Join(ApiCaller(id))
    case ApiSend(id) => Go(ApiCaller(id))
    case _ => Stay
  }

  lemma DispatcherLineStep(setup: Setup, s: State, step: Step)
    requires DispatcherLined(s) && Enabled(setup, s, step)
    ensures Apply(setup, s, step).dispatcherLine == Moved(s.dispatcherLine, DispatcherMove(s, step))
    ensures var m, s' := DispatcherMove(s, step), Apply(setup, s, step);
            && (m.Join? ==> m.x !in s.dispatcherLine && (m.x.GatewayTask? || m.x.ApiCaller?))
            && (m.Go? ==> DispatcherGrants(s, m.x))
            && (m == Join(GatewayTask) ==> s'.gateway.SendingUplink?)
            && (m == Go(GatewayTask) ==> !s'.gateway.SendingUplink?)
            && (m != Join(GatewayTask) && m != Go(GatewayTask) ==>
                  s'.gateway.SendingUplink? == s.gateway.SendingUplink?)
  {
    hide Leave, TakenBy, Session.Step, Session.SendsFor, NoRepeats, StartClients, OnClientMessage;
  }

  lemma MovedMembers(line: seq<Task>, m: Move<Task>)
    requires NoRepeats(line) && (m.Join? ==> m.x !in line) && (m.Go? ==> m.x in line)
    ensures NoRepeats(Moved(line, m))
    ensures forall t :: t in Moved(line, m) <==> m == Join(t) || (t in line && m != Go(t))
  {
    if m.Go? {
      LeaveMembers(line, m.x);
    } else if m.Join? {
      NoRepeatsJoin(line, m.x);
    }
  }

  lemma DispatcherLinedStep(setup: Setup, s: State, step: Step)
    requires DispatcherLined(s) && Enabled(setup, s, step)
    ensures DispatcherLined(Apply(setup, s, step))
  {
    DispatcherLineStep(setup, s, step);
    hide Enabled, Apply, DispatcherMove;
    MovedMembers(s.dispatcherLine, DispatcherMove(s, step));
    hide NoRepeats, Moved;
  }

  lemma BoundedStep(setup: Setup, s: State, step: Step)
    requires Bounded(s) && Enabled(setup, s, step)
    ensures Bounded(Apply(setup, s, step))
  {
    hide Leave, Place, OnRadio, TakenBy, Session.Step, Session.SendsFor;
  }

  lemma TidyStep(setup: Setup, s: State, step: Step)
    requires Tidy(s) && RegionSafety.Inv(s) && Enabled(setup, s, step)
    ensures Tidy(Apply(setup, s, step))
  {
    hide RegionSafety.RegionInv, GatewayLined, DispatcherLined, Bounded, Distinct, Enabled, Apply, Session.Sound;
    DistinctStep(setup, s, step);
    GatewayLinedStep(setup, s, step);
    DispatcherLinedStep(setup, s, step);
    BoundedStep(setup, s, step);
  }

  lemma {:induction false} TidyRun(setup: Setup, run: seq<State>, i: nat)
    requires IsRun(setup, run) && i < |run|
    ensures Tidy(run[i])
  {
    hide RegionSafety.Inv, Tidy, Enabled, Apply, Initial;
    if i == 0 {
      TidyInitial(setup);
    } else {
      TidyRun(setup, run, i - 1);
      RegionSafety.InvRun(setup, run, i - 1);
      assert Next(setup, run[i - 1], run[i - 1 + 1]);
      var step :| Enabled(setup, run[i - 1], step) && run[i] == Apply(setup, run[i - 1], step);
      TidyStep(setup, run[i - 1], step);
    }
  }

  lemma TidyInitial(setup: Setup)
    ensures Tidy(Initial(setup))
  {
  }

  lemma ReachableTidy(setup: Setup, s: State)
    requires Reachable(setup, s)
    ensures Tidy(s) && RegionSafety.Inv(s)
  {
    hide RegionSafety.Inv, Tidy, Enabled, Apply, Initial;
    var run :| IsRun(setup, run) && run[|run| - 1] == s;
    TidyRun(setup, run, |run| - 1);
    RegionSafety.ReachableInv(setup, s);
  }
}
