/** Safety over every run: channel plans travel in one order, and a beacon never outruns the plan it was made from. */
module PlanSafety {
  import opened Wrappers
  import opened Regions
  import Session
  import opened System

  /** The plans in the gateway's queue. */
  ghost function PlansAhead(queue: seq<GatewayMessage>): seq<RegionParams> {
    if queue == [] then []
    else (if queue[0].ParamsChanged? then [queue[0].params] else []) + PlansAhead(queue[1..])
  }

  /** The plans in the beaconer's queue. */
  ghost function PlansQueued(queue: seq<BeaconerMessage>): seq<RegionParams> {
    if queue == [] then []
    else (if queue[0].PlanChanged? then [queue[0].params] else []) + PlansQueued(queue[1..])
  }

  lemma {:induction false} PlansAheadAppend(queue: seq<GatewayMessage>, m: GatewayMessage)
    ensures PlansAhead(queue + [m]) == PlansAhead(queue) + if m.ParamsChanged? then [m.params] else []
  {
    if queue == [] {
    } else {
      PlansAheadAppend(queue[1..], m);
      assert (queue + [m])[1..] == queue[1..] + [m];
    }
  }

  lemma {:induction false} PlansQueuedAppend(queue: seq<BeaconerMessage>, m: BeaconerMessage)
    ensures PlansQueued(queue + [m]) == PlansQueued(queue) + if m.PlanChanged? then [m.params] else []
  {
    if queue == [] {
    } else {
      PlansQueuedAppend(queue[1..], m);
      assert (queue + [m])[1..] == queue[1..] + [m];
    }
  }

  /** The plan that the gateway has taken from its queue but not yet remembered. */
  ghost function InHand(g: GatewayPhase): seq<RegionParams> {
    match g
    case Forwarding(p) => [p]
    case Remembering(p) => [p]
    case _ => []
  }

  /** The plans that the gateway has passed on to the beaconer. */
  ghost function PassedOn(s: State): seq<RegionParams> {
    if s.gateway.Remembering? then s.log.handled + [s.gateway.params] else s.log.handled
  }

  ghost function Latest(plans: seq<RegionParams>): Option<RegionParams> {
    if plans == [] then None else Some(plans[|plans| - 1])
  }

  /** A beacon whose frequency is one of a plan that the beaconer has taken over. */
  ghost predicate MadeFrom(beacon: Beacon, plans: seq<RegionParams>) {
    beacon.source in plans && beacon.frequency in beacon.source.frequencies
  }

  /** One of the plans gives this power, or gives none. */
  ghost predicate PowerOf(power: Option<nat>, plans: seq<RegionParams>) {
    exists i :: 0 <= i < |plans| && plans[i].power == power
  }

  /** What became of a packet, in terms of plans that the gateway has taken over: it had one. */
  ghost predicate Explained(outcome: Outcome, plans: seq<RegionParams>) {
    match outcome
    case OnAir(power) => PowerOf(Some(power), plans)
    case NoPower => PowerOf(None, plans)
    case NoPlan => false
  }

  ghost predicate Transmitted(t: Transmission, plans: seq<RegionParams>) {
    MadeFrom(t.beacon, plans) && Explained(t.outcome, plans)
  }

  /** Dispatcher, gateway and beaconer have seen prefixes of one sequence of plans. */
  ghost predicate OneSequence(s: State) {
    && s.log.sent == s.log.handled + InHand(s.gateway) + PlansAhead(s.gatewayQueue)
    && PassedOn(s) == s.log.planned + PlansQueued(s.beaconerQueue)
    && s.gatewayParams == Latest(s.log.handled)
    && s.beaconerParams == Latest(s.log.planned)
  }

  ghost predicate BeaconsFollow(s: State) {
    && (s.beaconer.Transmitting? ==> MadeFrom(s.beaconer.beacon, s.log.planned))
    && (forall i | 0 <= i < |s.gatewayQueue| && s.gatewayQueue[i].TransmitBeacon? ::
          MadeFrom(s.gatewayQueue[i].beacon, s.log.planned))
    && (forall i | 0 <= i < |s.log.transmissions| :: Transmitted(s.log.transmissions[i], s.log.handled))
  }

  ghost predicate Inv(s: State) {
    OneSequence(s) && BeaconsFollow(s)
  }

  lemma MadeFromMore(beacon: Beacon, plans: seq<RegionParams>, more: seq<RegionParams>)
    requires MadeFrom(beacon, plans)
    ensures MadeFrom(beacon, plans + more)
  {
  }

  lemma ExplainedMore(outcome: Outcome, plans: seq<RegionParams>, more: seq<RegionParams>)
    requires Explained(outcome, plans)
    ensures Explained(outcome, plans + more)
  {
    match outcome
    case OnAir(power) => PowerOfMore(Some(power), plans, more);
    case NoPower => PowerOfMore(None, plans, more);
    case NoPlan =>
  }

  lemma PowerOfMore(power: Option<nat>, plans: seq<RegionParams>, more: seq<RegionParams>)
    requires PowerOf(power, plans)
    ensures PowerOf(power, plans + more)
  {
    var i :| 0 <= i < |plans| && plans[i].power == power;
    assert (plans + more)[i] == plans[i];
  }

  lemma GatewaySendKeeps(setup: Setup, s: State)
    requires OneSequence(s) && Enabled(setup, s, GatewaySend)
    ensures OneSequence(Apply(setup, s, GatewaySend))
  {
    if s.gateway.SendingBeacon? {
      PlansQueuedAppend(s.beaconerQueue, ReceivedBeacon(s.gateway.packet));
    } else if s.gateway.Forwarding? {
      var p, q := s.gateway.params, PlansQueued(s.beaconerQueue);
      PlansQueuedAppend(s.beaconerQueue, PlanChanged(p));
      hide PlansQueued, PlansAhead;
      assert s.log.handled + [p] == s.log.planned + (q + [p]);
    }
  }

  lemma GatewayReceiveKeeps(setup: Setup, s: State)
    requires OneSequence(s) && Enabled(setup, s, GatewayReceive)
    ensures OneSequence(Apply(setup, s, GatewayReceive))
  {
    var head, rest := s.gatewayQueue[0], PlansAhead(s.gatewayQueue[1..]);
    assert PlansAhead(s.gatewayQueue) == (if head.ParamsChanged? then [head.params] else []) + rest;
    hide PlansAhead, PlansQueued;
    var s' := Apply(setup, s, GatewayReceive);
    assert s.log.handled + [] + ([] + rest) == s.log.handled + [] + rest;
    if head.ParamsChanged? {
      assert s.log.handled + [] + ([head.params] + rest) == s.log.handled + [head.params] + rest;
    }
  }

  lemma GatewayRememberKeeps(setup: Setup, s: State)
    requires OneSequence(s) && Enabled(setup, s, GatewayRemember)
    ensures OneSequence(Apply(setup, s, GatewayRemember))
  {
    hide PlansAhead, PlansQueued;
    var p, ahead := s.gateway.params, PlansAhead(s.gatewayQueue);
    assert s.log.handled + [p] + ahead == (s.log.handled + [p]) + [] + ahead;
  }

  /** The beaconer takes the head of its queue, and remembers it if it is a plan. */
  lemma BeaconerTakes(s: State, s': State, head: BeaconerMessage)
    requires OneSequence(s) && s.beaconerQueue == [head] + s'.beaconerQueue
    requires s'.gateway == s.gateway && s'.gatewayQueue == s.gatewayQueue && s'.gatewayParams == s.gatewayParams
    requires s'.log.sent == s.log.sent && s'.log.handled == s.log.handled
    requires if head.PlanChanged? then
               s'.log.planned == s.log.planned + [head.params] && s'.beaconerParams == Some(head.params)
             else s'.log.planned == s.log.planned && s'.beaconerParams == s.beaconerParams
    ensures OneSequence(s')
  {
    var rest := PlansQueued(s'.beaconerQueue);
    assert s.beaconerQueue[1..] == s'.beaconerQueue;
    assert PlansQueued(s.beaconerQueue) == (if head.PlanChanged? then [head.params] else []) + rest;
    hide PlansAhead, PlansQueued;
    assert PassedOn(s') == s'.log.planned + rest;
  }

  /** Steps that only add to the gateway's queue. */
  lemma AppendKeeps(s: State, s': State, m: GatewayMessage)
    requires OneSequence(s) && s'.gatewayQueue == s.gatewayQueue + [m]
    requires s'.gateway == s.gateway && s'.beaconerQueue == s.beaconerQueue
    requires s'.gatewayParams == s.gatewayParams && s'.beaconerParams == s.beaconerParams
    requires s'.log.handled == s.log.handled && s'.log.planned == s.log.planned
    requires s'.log.sent == s.log.sent + if m.ParamsChanged? then [m.params] else []
    ensures OneSequence(s')
  {
    PlansAheadAppend(s.gatewayQueue, m);
    hide PlansAhead, PlansQueued;
    assert s'.log.sent == s.log.handled + InHand(s.gateway) + PlansAhead(s'.gatewayQueue);
  }

  /** A step that concerns no plan. */
  ghost predicate NoPlanMoved(s: State, s': State) {
    && PlansAhead(s'.gatewayQueue) == PlansAhead(s.gatewayQueue) && s'.beaconerQueue == s.beaconerQueue
    && InHand(s'.gateway) == InHand(s.gateway) && PassedOn(s') == PassedOn(s)
    && s'.gatewayParams == s.gatewayParams && s'.beaconerParams == s.beaconerParams
    && s'.log.sent == s.log.sent && s'.log.handled == s.log.handled && s'.log.planned == s.log.planned
  }

  lemma OtherStepMovesNoPlan(setup: Setup, s: State, step: Step)
    requires Enabled(setup, s, step) && !step.DispatcherSend? && !step.GatewaySend? && !step.GatewayReceive?
    requires !step.GatewayRemember? && !step.BeaconerReceive? && !step.BeaconerSend? && !step.ClientHand?
    ensures NoPlanMoved(s, Apply(setup, s, step))
  {
    hide PlansAhead, PlansQueued, StartClients, TakenBy, OnClientMessage, Session.Step, Session.SendsFor;
  }

  lemma SendKeepsSequence(setup: Setup, s: State)
    requires OneSequence(s) && Enabled(setup, s, DispatcherSend)
    ensures OneSequence(Apply(setup, s, DispatcherSend))
  {
    if s.pending[0].ToGateway? {
      AppendKeeps(s, Apply(setup, s, DispatcherSend), ParamsChanged(s.pending[0].params));
    }
    hide PlansAhead, PlansQueued;
  }

  lemma SequenceStep(setup: Setup, s: State, step: Step)
    requires OneSequence(s) && Enabled(setup, s, step)
    ensures OneSequence(Apply(setup, s, step))
  {
    hide OneSequence;
    match step
    case DispatcherSend =>
      SendKeepsSequence(setup, s);
    case GatewaySend =>
      GatewaySendKeeps(setup, s);
    case GatewayReceive =>
      GatewayReceiveKeeps(setup, s);
    case GatewayRemember =>
      GatewayRememberKeeps(setup, s);
    case BeaconerReceive =>
      BeaconerTakes(s, Apply(setup, s, step), s.beaconerQueue[0]);
    case BeaconerSend =>
      AppendKeeps(s, Apply(setup, s, step), TransmitBeacon(s.beaconer.beacon));
    case ClientHand(c) =>
      AppendKeeps(s, Apply(setup, s, step), Downlink(s.clients[c].phase.downlink));
    case _ =>
      OtherStepMovesNoPlan(setup, s, step);
      hide Apply, Enabled;
      UnmovedKeeps(s, Apply(setup, s, step));
  }

  lemma UnmovedKeeps(s: State, s': State)
    requires OneSequence(s) && NoPlanMoved(s, s')
    ensures OneSequence(s')
  {
    hide PlansAhead, PlansQueued;
  }

  /** What the beaconer has taken over, the gateway has passed on; when it listens, it has also remembered it. */
  lemma PlannedIsHandled(s: State, beacon: Beacon)
    requires OneSequence(s) && s.gateway.Listening? && MadeFrom(beacon, s.log.planned)
    ensures MadeFrom(beacon, s.log.handled)
    ensures Explained(OutcomeUnder(s.gatewayParams), s.log.handled)
  {
    assert s.log.handled == s.log.planned + PlansQueued(s.beaconerQueue);
    MadeFromMore(beacon, s.log.planned, PlansQueued(s.beaconerQueue));
    assert s.log.handled[|s.log.handled| - 1] == s.gatewayParams.value;
  }

  lemma GatewayReceiveFollows(setup: Setup, s: State)
    requires Inv(s) && Enabled(setup, s, GatewayReceive)
    ensures BeaconsFollow(Apply(setup, s, GatewayReceive))
  {
    if s.gatewayQueue[0].TransmitBeacon? {
      PlannedIsHandled(s, s.gatewayQueue[0].beacon);
    }
    hide OneSequence, MadeFrom, Explained;
    var s' := Apply(setup, s, GatewayReceive);
    assert forall i | 0 <= i < |s'.gatewayQueue| :: s'.gatewayQueue[i] == s.gatewayQueue[i + 1];
  }

  lemma HandledMore(s: State, p: RegionParams)
    requires BeaconsFollow(s)
    ensures BeaconsFollow(s.(log := s.log.(handled := s.log.handled + [p])))
  {
    hide MadeFrom, Explained;
    forall i | 0 <= i < |s.log.transmissions|
      ensures Transmitted(s.log.transmissions[i], s.log.handled + [p])
    {
      MadeFromMore(s.log.transmissions[i].beacon, s.log.handled, [p]);
      ExplainedMore(s.log.transmissions[i].outcome, s.log.handled, [p]);
    }
  }

  lemma PlannedMore(setup: Setup, s: State)
    requires BeaconsFollow(s) && Enabled(setup, s, BeaconerReceive)
    ensures BeaconsFollow(Apply(setup, s, BeaconerReceive))
  {
    if s.beaconerQueue[0].PlanChanged? {
      var p := s.beaconerQueue[0].params;
      forall i | 0 <= i < |s.gatewayQueue| && s.gatewayQueue[i].TransmitBeacon?
        ensures MadeFrom(s.gatewayQueue[i].beacon, s.log.planned + [p])
      {
        MadeFromMore(s.gatewayQueue[i].beacon, s.log.planned, [p]);
      }
    }
    hide MadeFrom, Explained;
  }

  lemma TickFollows(setup: Setup, s: State, step: Step)
    requires Inv(s) && step.BeaconTick? && Enabled(setup, s, step)
    ensures BeaconsFollow(Apply(setup, s, step))
  {
    hide PlansAhead, PlansQueued, Explained;
    assert s.beaconerParams.value in s.log.planned;
  }

  lemma BeaconStep(setup: Setup, s: State, step: Step)
    requires Inv(s) && Enabled(setup, s, step)
    ensures BeaconsFollow(Apply(setup, s, step))
  {
    hide OneSequence, MadeFrom, Explained;
    if step.GatewayReceive? {
      GatewayReceiveFollows(setup, s);
    } else if step.GatewayRemember? {
      HandledMore(s, s.gateway.params);
    } else if step.BeaconerReceive? {
      PlannedMore(setup, s);
    } else if step.BeaconTick? {
      TickFollows(setup, s, step);
    }
  }

  lemma InvInitial(setup: Setup)
    ensures Inv(Initial(setup))
  {
  }

  lemma {:induction false} InvRun(setup: Setup, run: seq<State>, i: nat)
    requires IsRun(setup, run) && i < |run|
    ensures Inv(run[i])
  {
    hide OneSequence, BeaconsFollow, Enabled, Apply, Initial;
    if i == 0 {
      InvInitial(setup);
    } else {
      InvRun(setup, run, i - 1);
      assert Next(setup, run[i - 1], run[i - 1 + 1]);
      var step :| Enabled(setup, run[i - 1], step) && run[i] == Apply(setup, run[i - 1], step);
      SequenceStep(setup, run[i - 1], step);
      BeaconStep(setup, run[i - 1], step);
    }
  }

  /**
    In every reachable state the plans taken over by the beaconer, passed on by the gateway and sent by the
    dispatcher are successive prefixes of one sequence; the gateway has never met a beacon without a plan, and the
    next one it takes from its queue finds a plan too; every beacon on the air has a frequency of a plan, and the power
    of a plan, that the gateway itself had taken over; and one is dropped only if such a plan gives no power.
   */
  lemma BeaconsNeverOutrunPlans(setup: Setup, s: State)
    requires Reachable(setup, s)
    ensures s.log.planned <= PassedOn(s) <= s.log.sent
    ensures s.log.handled <= s.log.sent
    ensures s.gateway.Listening? && s.gatewayQueue != [] && s.gatewayQueue[0].TransmitBeacon? ==> s.gatewayParams.Some?
    ensures forall i | 0 <= i < |s.log.transmissions| ::
              var t := s.log.transmissions[i];
              && t.beacon.source in s.log.handled && t.beacon.frequency in t.beacon.source.frequencies
              && match t.outcome
                 case OnAir(power) => exists k :: 0 <= k < |s.log.handled| && s.log.handled[k].power == Some(power)
                 case NoPower => exists k :: 0 <= k < |s.log.handled| && s.log.handled[k].power.None?
                 case NoPlan => false
  {
    hide Enabled, Apply, Initial;
    var run :| IsRun(setup, run) && run[|run| - 1] == s;
    InvRun(setup, run, |run| - 1);
    if s.gateway.Listening? && s.gatewayQueue != [] && s.gatewayQueue[0].TransmitBeacon? {
      PlannedIsHandled(s, s.gatewayQueue[0].beacon);
    }
  }
}
