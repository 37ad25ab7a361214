/**
  Conservation over every run: each packet that a router answers with, and each beacon that the beaconer makes, reaches
  the gateway once and in order, and finds it with a channel plan.
 */
module Downlinks {
  import opened Wrappers
  import opened Lines
  import opened Packet
  import Session
  import opened System
  import RegionSafety
  import PlanSafety

  // -------- Where they are --------

  /** The packets among the answers that came on channel `c`. */
  ghost function PacketsOn(c: nat, answers: seq<Answer>): seq<Packet> {
    if answers == [] then []
    else
      var front, last := answers[..|answers| - 1], answers[|answers| - 1];
      PacketsOn(c, front) + if last.chan == c then [last.packet] else []
  }

  /** The packet that the client of channel `c` waits to hand on. */
  ghost function InHand(s: State, c: nat): seq<Packet> {
    if c in s.clients && s.clients[c].phase.Handing? then [s.clients[c].phase.downlink] else []
  }

  ghost function DownlinkIn(m: GatewayMessage): seq<Packet> {
    if m.Downlink? then [m.packet] else []
  }

  ghost function BeaconIn(m: GatewayMessage): seq<Beacon> {
    if m.TransmitBeacon? then [m.beacon] else []
  }

  ghost function DownlinksQueued(queue: seq<GatewayMessage>): seq<Packet> {
    if queue == [] then [] else DownlinkIn(queue[0]) + DownlinksQueued(queue[1..])
  }

  ghost function BeaconsQueued(queue: seq<GatewayMessage>): seq<Beacon> {
    if queue == [] then [] else BeaconIn(queue[0]) + BeaconsQueued(queue[1..])
  }

  ghost function HandedPackets(handed: seq<Answer>): seq<Packet> {
    seq(|handed|, i requires 0 <= i < |handed| => handed[i].packet)
  }

  ghost function TakenPackets(downlinked: seq<Downlinked>): seq<Packet> {
    seq(|downlinked|, i requires 0 <= i < |downlinked| => downlinked[i].packet)
  }

  ghost function TakenBeacons(transmissions: seq<Transmission>): seq<Beacon> {
    seq(|transmissions|, i requires 0 <= i < |transmissions| => transmissions[i].beacon)
  }

  ghost function BeingMade(b: BeaconerPhase): seq<Beacon> {
    if b.Transmitting? then [b.beacon] else []
  }

  /** The answers of a channel are those handed on and the one in hand. */
  ghost predicate AnswersKept(s: State, c: nat) {
    PacketsOn(c, s.log.answers) == PacketsOn(c, s.log.handed) + InHand(s, c)
  }

  /** What was handed on is what the gateway took and what is on its channel. */
  ghost predicate HandedKept(s: State) {
    HandedPackets(s.log.handed) == TakenPackets(s.log.downlinked) + DownlinksQueued(s.gatewayQueue)
  }

  /** The beacons made are those that the gateway took, those on its channel, and the one in the beaconer's hand. */
  ghost predicate BeaconsKept(s: State) {
    s.log.made == TakenBeacons(s.log.transmissions) + BeaconsQueued(s.gatewayQueue) + BeingMade(s.beaconer)
  }

  // -------- The gateway's channel --------

  lemma {:induction false} QueuedAppend(queue: seq<GatewayMessage>, m: GatewayMessage)
    ensures DownlinksQueued(queue + [m]) == DownlinksQueued(queue) + DownlinkIn(m)
    ensures BeaconsQueued(queue + [m]) == BeaconsQueued(queue) + BeaconIn(m)
  {
    hide DownlinkIn, BeaconIn;
    if queue == [] {
      assert queue + [m] == [m] && [m][1..] == [];
    } else {
      QueuedAppend(queue[1..], m);
      assert (queue + [m])[1..] == queue[1..] + [m] && (queue + [m])[0] == queue[0];
    }
  }

  /** What a step does to the gateway's channel: it puts one message in, takes one out, or neither. */
  ghost predicate QueueMoves(setup: Setup, s: State, s': State, step: Step)
    requires Enabled(setup, s, step)
  {
    match step
    case DispatcherSend =>
      s'.gatewayQueue == s.gatewayQueue + if s.pending[0].ToGateway? then [ParamsChanged(s.pending[0].params)] else []
    case BeaconerSend => s'.gatewayQueue == s.gatewayQueue + [TransmitBeacon(s.beaconer.beacon)]
    case ClientHand(c) => s'.gatewayQueue == s.gatewayQueue + [Downlink(s.clients[c].phase.downlink)]
    case GatewayReceive => s'.gatewayQueue == s.gatewayQueue[1..]
    case _ => s'.gatewayQueue == s.gatewayQueue
  }

  lemma StepMoves(setup: Setup, s: State, step: Step)
    requires Enabled(setup, s, step)
    ensures QueueMoves(setup, s, Apply(setup, s, step), step)
  {
    hide OnRadio, StartClients, TakenBy, OnClientMessage, Session.Step, Session.SendsFor;
  }

  lemma StepLogs(setup: Setup, s: State, step: Step)
    requires Enabled(setup, s, step)
    ensures var s' := Apply(setup, s, step);
            && (!step.ClientHand? ==> s'.log.handed == s.log.handed)
            && (!step.ClientSend? ==> s'.log.answers == s.log.answers)
            && (!step.GatewayReceive? ==>
                  s'.log.downlinked == s.log.downlinked && s'.log.transmissions == s.log.transmissions)
            && (!step.BeaconTick? ==> s'.log.made == s.log.made)
            && (!step.BeaconTick? && !step.BeaconerSend? ==> s'.beaconer == s.beaconer)
  {
    hide OnRadio, StartClients, TakenBy, OnClientMessage, Session.Step, Session.SendsFor;
  }

  lemma HandedStep(setup: Setup, s: State, step: Step)
    requires HandedKept(s) && Enabled(setup, s, step)
    ensures HandedKept(Apply(setup, s, step))
  {
    hide HandedPackets, TakenPackets, DownlinksQueued, BeaconsQueued, OnRadio, OnClientMessage, StartClients, TakenBy;
    var s' := Apply(setup, s, step);
    StepMoves(setup, s, step);
    StepLogs(setup, s, step);
    match step
    case ClientHand(c) =>
      var d := s.clients[c].phase.downlink;
      HandedMore(s.log.handed, Answer(c, d));
      QueuedAppend(s.gatewayQueue, Downlink(d));
    case GatewayReceive =>
      TakeHanded(s, s');
    case DispatcherSend =>
      if s.pending[0].ToGateway? {
        QueuedAppend(s.gatewayQueue, ParamsChanged(s.pending[0].params));
      }
    case BeaconerSend =>
      QueuedAppend(s.gatewayQueue, TransmitBeacon(s.beaconer.beacon));
    case _ =>
  }

  lemma HandedMore(handed: seq<Answer>, a: Answer)
    ensures HandedPackets(handed + [a]) == HandedPackets(handed) + [a.packet]
  {
  }

  lemma TakeHanded(s: State, s': State)
    requires HandedKept(s) && s.gatewayQueue != [] && s' == OnGatewayMessage(s)
    ensures HandedKept(s')
  {
    var m := s.gatewayQueue[0];
    if m.Downlink? {
      var x := Downlinked(m.packet, OutcomeUnder(s.gatewayParams));
      assert TakenPackets(s.log.downlinked + [x]) == TakenPackets(s.log.downlinked) + [m.packet];
    }
  }

  lemma BeaconsStep(setup: Setup, s: State, step: Step)
    requires BeaconsKept(s) && Enabled(setup, s, step)
    ensures BeaconsKept(Apply(setup, s, step))
  {
    hide TakenBeacons, DownlinksQueued, BeaconsQueued, OnRadio, OnClientMessage, StartClients, TakenBy;
    var s' := Apply(setup, s, step);
    StepMoves(setup, s, step);
    StepLogs(setup, s, step);
    match step
    case BeaconTick(_) =>
    case BeaconerSend =>
      QueuedAppend(s.gatewayQueue, TransmitBeacon(s.beaconer.beacon));
    case ClientHand(c) =>
      QueuedAppend(s.gatewayQueue, Downlink(s.clients[c].phase.downlink));
    case GatewayReceive =>
      TakeBeacon(s, s');
    case DispatcherSend =>
      if s.pending[0].ToGateway? {
        QueuedAppend(s.gatewayQueue, ParamsChanged(s.pending[0].params));
      }
    case _ =>
  }

  lemma TakeBeacon(s: State, s': State)
    requires BeaconsKept(s) && s.gatewayQueue != [] && s' == OnGatewayMessage(s)
    ensures BeaconsKept(s')
  {
    var m := s.gatewayQueue[0];
    if m.TransmitBeacon? {
      var x := Transmission(m.beacon, OutcomeUnder(s.gatewayParams));
      assert TakenBeacons(s.log.transmissions + [x]) == TakenBeacons(s.log.transmissions) + [m.beacon];
    }
  }

  // -------- The clients --------

  lemma OnMore(c: nat, answers: seq<Answer>, a: Answer)
    ensures PacketsOn(c, answers + [a]) == PacketsOn(c, answers) + if a.chan == c then [a.packet] else []
  {
    assert (answers + [a])[..|answers|] == answers;
  }

  lemma AnswersStep(setup: Setup, s: State, step: Step, c: nat)
    requires AnswersKept(s, c) && Enabled(setup, s, step)
    ensures AnswersKept(Apply(setup, s, step), c)
  {
    hide PacketsOn;
    StepLogs(setup, s, step);
    match step
    case ClientSend(d, reply) =>
      AnswersSend(setup, s, step, c);
    case ClientHand(d) =>
      OnMore(c, s.log.handed, Answer(d, s.clients[d].phase.downlink));
    case _ =>
      SameInHand(setup, s, step, c);
  }

  lemma AnswersSend(setup: Setup, s: State, step: Step, c: nat)
    requires AnswersKept(s, c) && step.ClientSend? && Enabled(setup, s, step)
    ensures AnswersKept(Apply(setup, s, step), c)
  {
    hide PacketsOn, Place, Leave;
    var reply := step.reply;
    if reply.Response? && reply.downlink.Some? {
      OnMore(c, s.log.answers, Answer(step.chan, reply.downlink.value));
    } else {
      assert s.log.answers + [] == s.log.answers;
    }
  }

  lemma SameInHand(setup: Setup, s: State, step: Step, c: nat)
    requires Enabled(setup, s, step) && !step.ClientSend? && !step.ClientHand?
    ensures InHand(Apply(setup, s, step), c) == InHand(s, c)
  {
    hide OnRadio, TakenBy, Session.Step, Session.SendsFor;
  }

  // -------- The gateway has a plan --------

  /** As long as the gateway has taken no plan, the next message on its channel, if there is one, is a plan. */
  ghost predicate PlanFirst(s: State) {
    && (s.log.handled == [] && PlanSafety.InHand(s.gateway) == [] ==>
          s.gatewayQueue == [] || s.gatewayQueue[0].ParamsChanged?)
    && (s.log.sent == [] ==>
          && s.gatewayQueue == [] && s.clients == map[]
          && (s.dispatcher.phase.InSession? ==> s.pending != [] && s.pending[0].ToGateway?))
    && forall i | 0 <= i < |s.log.downlinked| :: PlanSafety.Explained(s.log.downlinked[i].outcome, s.log.handled)
  }

  lemma PlanFirstEvent(setup: Setup, s: State, step: Step)
    requires PlanFirst(s) && RegionSafety.Inv(s) && step.DispatcherEvent? && Enabled(setup, s, step)
    ensures PlanFirst(Apply(setup, s, step))
  {
    RegionSafety.EventKeepsShape(setup, s, step);
    RegionSafety.ChannelsGrow(s.dispatcher, step.event);
    hide RegionSafety.RegionInv, Session.Sound, StartClients, TakenBy, Channels, PlanSafety.Explained;
    var s' := Apply(setup, s, step);
    if s.log.sent == [] {
      assert s'.clients.Keys == s.clients.Keys;
      assert s'.clients == map[];
    }
  }

  /** Whoever sends to the gateway has its plan, or its client, from a plan that was sent before. */
  lemma PlanFirstSend(setup: Setup, s: State, step: Step)
    requires PlanFirst(s) && PlanSafety.OneSequence(s) && Enabled(setup, s, step)
    requires step.DispatcherSend? || step.BeaconerSend? || step.ClientHand?
    requires step.BeaconerSend? ==> s.log.planned != []
    ensures PlanFirst(Apply(setup, s, step))
  {
    hide PlanSafety.Explained, PlanSafety.PlansQueued;
    var s' := Apply(setup, s, step);
    if s.log.sent == [] {
      assert s.gatewayQueue == [];
    } else if s.log.handled == [] && PlanSafety.InHand(s.gateway) == [] {
      assert s.gatewayQueue != [];
      assert s'.gatewayQueue[0] == s.gatewayQueue[0];
    }
  }

  lemma PlanFirstReceive(setup: Setup, s: State)
    requires PlanFirst(s) && PlanSafety.OneSequence(s) && Enabled(setup, s, GatewayReceive)
    ensures PlanFirst(Apply(setup, s, GatewayReceive))
  {
    hide PlanSafety.PlansQueued, PlanSafety.PlansAhead;
    if s.gatewayQueue[0].Downlink? {
      var last := |s.log.handled| - 1;
      assert s.log.handled[last] == s.gatewayParams.value;
    }
  }

  lemma PlanFirstRemember(setup: Setup, s: State)
    requires PlanFirst(s) && Enabled(setup, s, GatewayRemember)
    ensures PlanFirst(Apply(setup, s, GatewayRemember))
  {
    hide PlanSafety.Explained;
    forall i | 0 <= i < |s.log.downlinked|
      ensures PlanSafety.Explained(s.log.downlinked[i].outcome, s.log.handled + [s.gateway.params])
    {
      PlanSafety.ExplainedMore(s.log.downlinked[i].outcome, s.log.handled, [s.gateway.params]);
    }
  }

  lemma PlanFirstOther(setup: Setup, s: State, step: Step)
    requires PlanFirst(s) && Enabled(setup, s, step) && !step.DispatcherEvent? && !step.DispatcherSend?
    requires !step.BeaconerSend? && !step.ClientHand? && !step.GatewayReceive? && !step.GatewayRemember?
    ensures PlanFirst(Apply(setup, s, step))
  {
    hide PlanSafety.Explained, OnClientMessage, TakenBy, StartClients;
  }

  lemma PlanFirstStep(setup: Setup, s: State, step: Step)
    requires PlanFirst(s) && RegionSafety.Inv(s) && PlanSafety.Inv(s) && Enabled(setup, s, step)
    ensures PlanFirst(Apply(setup, s, step))
  {
    hide PlanFirst, RegionSafety.Inv, PlanSafety.OneSequence;
    if step.DispatcherEvent? {
      PlanFirstEvent(setup, s, step);
    } else if step.DispatcherSend? || step.BeaconerSend? || step.ClientHand? {
      PlanFirstSend(setup, s, step);
    } else if step.GatewayReceive? {
      PlanFirstReceive(setup, s);
    } else if step.GatewayRemember? {
      PlanFirstRemember(setup, s);
    } else {
      PlanFirstOther(setup, s, step);
    }
  }

  // -------- Every run --------

  ghost predicate Inv(s: State) {
    HandedKept(s) && BeaconsKept(s) && PlanFirst(s) && forall c: nat :: AnswersKept(s, c)
  }

  lemma InvInitial(setup: Setup)
    ensures Inv(Initial(setup))
  {
  }

  lemma {:induction false} InvRun(setup: Setup, run: seq<State>, i: nat)
    requires IsRun(setup, run) && i < |run|
    ensures Inv(run[i])
  {
    hide HandedKept, BeaconsKept, PlanFirst, AnswersKept, RegionSafety.Inv, PlanSafety.Inv, Enabled, Apply, Initial;
    if i == 0 {
      InvInitial(setup);
    } else {
      InvRun(setup, run, i - 1);
      RegionSafety.InvRun(setup, run, i - 1);
      PlanSafety.InvRun(setup, run, i - 1);
      assert Next(setup, run[i - 1], run[i - 1 + 1]);
      var step :| Enabled(setup, run[i - 1], step) && run[i] == Apply(setup, run[i - 1], step);
      HandedStep(setup, run[i - 1], step);
      BeaconsStep(setup, run[i - 1], step);
      PlanFirstStep(setup, run[i - 1], step);
      forall c: nat
        ensures AnswersKept(run[i], c)
      {
        AnswersStep(setup, run[i - 1], step, c);
      }
    }
  }

  /**
    In every reachable state: the packets that the router of a channel answered with are those its client handed on
    and the one in its hand; all that was handed on are those the gateway took and those on its channel; the beacons
    made are those the gateway took, those on its channel and the one in the beaconer's hand; each once and in order.
   */
  lemma EveryDownlinkOnce(setup: Setup, s: State, c: nat)
    requires Reachable(setup, s)
    ensures PacketsOn(c, s.log.answers) == PacketsOn(c, s.log.handed) + InHand(s, c)
    ensures HandedPackets(s.log.handed) == TakenPackets(s.log.downlinked) + DownlinksQueued(s.gatewayQueue)
    ensures s.log.made == TakenBeacons(s.log.transmissions) + BeaconsQueued(s.gatewayQueue) + BeingMade(s.beaconer)
  {
    var run :| IsRun(setup, run) && run[|run| - 1] == s;
    InvRun(setup, run, |run| - 1);
    hide IsRun, PlanFirst;
    assert AnswersKept(s, c);
  }

  /** No downlink finds the gateway without a plan, and one is dropped only if a plan it handled gives no power. */
  lemma DownlinksFindPlan(setup: Setup, s: State, i: nat)
    requires Reachable(setup, s) && i < |s.log.downlinked|
    ensures var outcome := s.log.downlinked[i].outcome;
            && !outcome.NoPlan?
            && (outcome.OnAir? ==>
                  exists k :: 0 <= k < |s.log.handled| && s.log.handled[k].power == Some(outcome.power))
            && (outcome.NoPower? ==> exists k :: 0 <= k < |s.log.handled| && s.log.handled[k].power.None?)
  {
    var run :| IsRun(setup, run) && run[|run| - 1] == s;
    InvRun(setup, run, |run| - 1);
    hide IsRun, HandedKept, BeaconsKept, AnswersKept;
    assert PlanSafety.Explained(s.log.downlinked[i].outcome, s.log.handled);
  }
}
