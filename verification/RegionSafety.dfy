/** Safety over every run: the table and its tasks agree, and packets carry the region they were dispatched under. */
module RegionSafety {
  import opened Regions
  import opened RoutingTable
  import opened Dispatcher
  import Session
  import opened System

  // -------- The table and its tasks --------

  ghost predicate SendOk(s: State, send: Send) {
    send.ToRouter? ==> send.chan in s.clients && !send.message.Stop?
  }

  /** Every router in the table has its task, no other task exists, and none is ever told to stop. */
  ghost predicate Shape(s: State) {
    && Session.Sound(s.dispatcher)
    && s.clients.Keys == Channels(s.dispatcher.core.table.routers)
    && (forall i | 0 <= i < |s.pending| :: SendOk(s, s.pending[i]))
  }

  // -------- Regions --------

  /** Following the messages in order from region `r` stamps each uplink as dispatched, and ends in `final`. */
  ghost predicate LineOk(r: Region, line: seq<Queued>, final: Region)
    decreases |line|
  {
    if line == [] then r == final
    else match line[0].message
      case Uplink(_, _) => line[0].held == r && LineOk(r, line[1..], final)
      case RegionChanged(region) => LineOk(region, line[1..], final)
      case Stop => false
  }

  /** The messages to a client that the dispatcher has decided on but not yet put on the channel. */
  ghost function PendingFor(c: nat, pending: seq<Send>, held: Region): seq<Queued> {
    if pending == [] then []
    else
      (if pending[0].ToRouter? && pending[0].chan == c then [Queued(pending[0].message, held)] else [])
      + PendingFor(c, pending[1..], held)
  }

  ghost predicate StoreOk(t: ClientTask) {
    && !t.phase.Stopped?
    && (t.phase.Idle? ==> t.store == [])
    && |t.store| <= 1
    && forall i | 0 <= i < |t.store| :: t.store[i].held == t.region
  }

  ghost predicate ClientOk(t: ClientTask, more: seq<Queued>, final: Region) {
    StoreOk(t) && LineOk(t.region, t.queue + more, final)
  }

  ghost predicate RegionInv(s: State) {
    forall c | c in s.clients ::
      ClientOk(s.clients[c], PendingFor(c, s.pending, s.dispatcher.core.region), s.dispatcher.core.region)
  }

  ghost predicate StampsOk(s: State) {
    forall i | 0 <= i < |s.log.attempts| :: s.log.attempts[i].region == s.log.attempts[i].held
  }

  ghost predicate Inv(s: State) {
    Shape(s) && RegionInv(s) && StampsOk(s)
  }

  lemma {:induction false} LineJoin(r: Region, line: seq<Queued>, mid: Region, more: seq<Queued>, final: Region)
    requires LineOk(r, line, mid) && LineOk(mid, more, final)
    ensures LineOk(r, line + more, final)
    decreases |line|
  {
    if line == [] {
      assert line + more == more;
    } else {
      var head := line[0].message;
      assert (line + more)[1..] == line[1..] + more;
      LineJoin(if head.RegionChanged? then head.region else r, line[1..], mid, more, final);
    }
  }

  /** A broadcast leaves one message for each channel in its order. */
  lemma {:induction false} PendingBroadcast(order: seq<nat>, message: ClientMessage, c: nat, held: Region)
    requires forall i, j | 0 <= i < j < |order| :: order[i] != order[j]
    ensures PendingFor(c, Broadcast(order, message), held) == if c in order then [Queued(message, held)] else []
  {
    if order != [] {
      PendingBroadcast(order[1..], message, c, held);
      assert Broadcast(order, message)[1..] == Broadcast(order[1..], message);
    } else {
      assert Broadcast(order, message) == [];
    }
  }

  // -------- Dispatcher events --------

  lemma RegionPending(s: Session.State, u: RegionResponse, sends: seq<Send>, order: seq<nat>, c: nat)
    requires RegionAccepted(s.core, u) && c in Channels(s.core.table.routers)
    requires OrderOf(order, s.core.table.routers, s.core.table.routers.Keys)
    requires sends == [ToGateway(u.params.value)] + Broadcast(order, RegionChanged(u.params.value.region))
    ensures var r := u.params.value.region; LineOk(s.core.region, PendingFor(c, sends, r), r)
  {
    hide Broadcast;
    var r := u.params.value.region;
    assert sends[1..] == Broadcast(order, RegionChanged(r));
    PendingBroadcast(order, RegionChanged(r), c, r);
  }

  /** What one event leaves for a client moves it from the old region to the new one. */
  lemma EventPending(setup: Setup, s: Session.State, e: Session.Event, sends: seq<Send>, c: nat)
    requires Session.Sound(s) && Session.Enabled(s, e) && Session.SendsFor(s, setup.config, e, sends)
    requires c in Channels(s.core.table.routers)
    ensures var r := Session.Step(s, e).core.region;
            LineOk(s.core.region, PendingFor(c, sends, r), r)
  {
    hide Session.Sound;
    var routers, r := s.core.table.routers, s.core.region;
    match e
    case RegionUpdate(u) =>
      if RegionAccepted(s.core, u) {
        var order :| OrderOf(order, routers, routers.Keys)
                  && sends == [ToGateway(u.params.value)] + Broadcast(order, RegionChanged(u.params.value.region));
        hide OrderOf, Broadcast;
        RegionPending(s, u, sends, order, c);
      }
    case RoutingUpdate(u, starts) =>
      RoutingSendsNothing(setup, s, e, sends);
    case UplinkArrived(packet, received) =>
      var order :| OrderOf(order, routers, TargetKeys(routers, setup.config, packet))
                && sends == Broadcast(order, Uplink(packet, received));
      PendingBroadcast(order, Uplink(packet, received), c, r);
    case _ =>
  }

  lemma RoutingSendsNothing(setup: Setup, s: Session.State, e: Session.Event, sends: seq<Send>)
    requires Session.Sound(s) && Session.Enabled(s, e) && Session.SendsFor(s, setup.config, e, sends)
    requires e.RoutingUpdate?
    ensures sends == []
  {
    if RoutingAccepted(s.core, e.routing) {
      var updates := UpdatesOf(e.routing.routings.value, e.starts);
      Session.NeverStopped(s.log.history, updates);
      var order :| Session.IsOrder(order, Session.StoppedBy(s.core.table, updates)) && sends == Broadcast(order, Stop);
    }
  }

  /** A broadcast only addresses routers of the table, and never with a stop. */
  lemma EventSendsOk(setup: Setup, s: Session.State, e: Session.Event, sends: seq<Send>)
    requires Session.Sound(s) && Session.Enabled(s, e) && Session.SendsFor(s, setup.config, e, sends)
    ensures forall i | 0 <= i < |sends| && sends[i].ToRouter? ::
              sends[i].chan in Channels(s.core.table.routers) && !sends[i].message.Stop?
  {
    var routers := s.core.table.routers;
    match e
    case RegionUpdate(u) =>
      if RegionAccepted(s.core, u) {
        var order :| OrderOf(order, routers, routers.Keys)
                  && sends == [ToGateway(u.params.value)] + Broadcast(order, RegionChanged(u.params.value.region));
        OrderIsChannels(order, routers, routers.Keys);
      }
    case RoutingUpdate(u, starts) =>
      RoutingSendsNothing(setup, s, e, sends);
    case UplinkArrived(packet, received) =>
      var keys := TargetKeys(routers, setup.config, packet);
      var order :| OrderOf(order, routers, keys) && sends == Broadcast(order, Uplink(packet, received));
      OrderIsChannels(order, routers, keys);
    case _ =>
  }

  lemma OrderIsChannels(order: seq<nat>, routers: Routers, keys: set<RouterKey>)
    requires OrderOf(order, routers, keys)
    ensures forall i | 0 <= i < |order| :: order[i] in Channels(routers)
  {
    forall i | 0 <= i < |order|
      ensures order[i] in Channels(routers)
    {
      var c := order[i];
      assert Serves(c, routers, keys);
      var k :| k in keys && k in routers && routers[k].chan == c;
    }
  }

  /** Routers keep their channels, so no task loses its router. */
  lemma ChannelsGrow(s: Session.State, e: Session.Event)
    requires Session.Sound(s) && Session.Enabled(s, e)
    ensures Channels(s.core.table.routers) <= Channels(Session.Step(s, e).core.table.routers)
    ensures !e.RegionUpdate? ==> Session.Step(s, e).core.region == s.core.region
    ensures !e.RoutingUpdate? ==> Session.Step(s, e).core.table == s.core.table
  {
    if e.RoutingUpdate? && RoutingAccepted(s.core, e.routing) {
      var h, updates := s.log.history, UpdatesOf(e.routing.routings.value, e.starts);
      Session.ApplyAllExtends(h, updates);
      forall c | c in Channels(s.core.table.routers)
        ensures c in Channels(Session.Step(s, e).core.table.routers)
      {
        var k :| k in s.core.table.routers && s.core.table.routers[k].chan == c;
        ChannelsAreForever(h, updates, k);
      }
    }
  }

  lemma StartedKeys(clients: map<nat, ClientTask>, routers: Routers, region: Region)
    requires clients.Keys <= Channels(routers)
    ensures StartClients(clients, routers, region).Keys == Channels(routers)
  {
    hide Channels;
  }

  lemma EventKeepsShape(setup: Setup, s: State, step: Step)
    requires Shape(s) && step.DispatcherEvent? && Enabled(setup, s, step)
    ensures Shape(Apply(setup, s, step))
  {
    hide Session.Sound, Session.SendsFor, Session.Step, Session.Enabled, Channels, StartClients, TakenBy, Joining;
    var e := step.event;
    Session.SoundStep(s.dispatcher, e);
    ChannelsGrow(s.dispatcher, e);
    EventSendsOk(setup, s.dispatcher, e, step.sends);
    var d := Session.Step(s.dispatcher, e);
    StartedKeys(s.clients, d.core.table.routers, d.core.region);
  }

  lemma EventKeepsRegions(setup: Setup, s: State, step: Step)
    requires Inv(s) && step.DispatcherEvent? && Enabled(setup, s, step)
    ensures RegionInv(Apply(setup, s, step))
  {
    var e, s' := step.event, Apply(setup, s, step);
    ChannelsGrow(s.dispatcher, e);
    var r := s'.dispatcher.core.region;
    forall c | c in s'.clients
      ensures ClientOk(s'.clients[c], PendingFor(c, step.sends, r), r)
    {
      if c in s.clients {
        EventPending(setup, s.dispatcher, e, step.sends, c);
        OldClient(s.clients[c], s.dispatcher.core.region, PendingFor(c, step.sends, r), r);
      } else {
        NewClient(setup, s, step, c);
      }
    }
  }

  lemma OldClient(t: ClientTask, before: Region, more: seq<Queued>, after: Region)
    requires ClientOk(t, [], before) && LineOk(before, more, after)
    ensures ClientOk(t, more, after)
  {
    assert t.queue + [] == t.queue;
    LineJoin(t.region, t.queue, before, more, after);
  }

  lemma NewClient(setup: Setup, s: State, step: Step, c: nat)
    requires Shape(s) && step.DispatcherEvent? && step.event.RoutingUpdate? && Enabled(setup, s, step)
    requires c in Apply(setup, s, step).clients && c !in s.clients
    ensures var s' := Apply(setup, s, step);
            var r := s'.dispatcher.core.region;
            ClientOk(s'.clients[c], PendingFor(c, step.sends, r), r)
  {
    hide Session.Sound, Session.SendsFor;
    RoutingSendsNothing(setup, s.dispatcher, step.event, step.sends);
  }

  // -------- Dispatcher sends --------

  lemma PendingHead(c: nat, pending: seq<Send>, r: Region, queue: seq<Queued>)
    requires pending != []
    ensures pending[0].ToRouter? && pending[0].chan == c ==>
            queue + PendingFor(c, pending, r)
            == (queue + [Queued(pending[0].message, r)]) + PendingFor(c, pending[1..], r)
    ensures !(pending[0].ToRouter? && pending[0].chan == c) ==>
            PendingFor(c, pending, r) == PendingFor(c, pending[1..], r)
  {
    var rest := PendingFor(c, pending[1..], r);
    if pending[0].ToRouter? && pending[0].chan == c {
      var x := Queued(pending[0].message, r);
      assert PendingFor(c, pending, r) == [x] + rest;
      assert queue + ([x] + rest) == (queue + [x]) + rest;
    }
  }

  lemma SendKeepsClient(setup: Setup, s: State, c: nat)
    requires s.pending != [] && HasRoom(s, s.pending[0]) && c in s.clients
    ensures var r := s.dispatcher.core.region;
            var s' := Deliver(s, s.pending[0]);
            && c in s'.clients
            && s'.clients[c].(queue := []) == s.clients[c].(queue := [])
            && s'.clients[c].queue + PendingFor(c, s.pending[1..], r)
            == s.clients[c].queue + PendingFor(c, s.pending, r)
  {
    hide PendingFor;
    PendingHead(c, s.pending, s.dispatcher.core.region, s.clients[c].queue);
  }

  lemma SendKeeps(setup: Setup, s: State, step: Step)
    requires Inv(s) && step.DispatcherSend? && Enabled(setup, s, step)
    ensures Inv(Apply(setup, s, step))
  {
    hide Session.Sound;
    var s', r := Apply(setup, s, step), s.dispatcher.core.region;
    assert s'.clients.Keys == s.clients.Keys;
    assert Shape(s') by {
      assert forall i | 0 <= i < |s'.pending| :: s'.pending[i] == s.pending[i + 1] && SendOk(s, s.pending[i + 1]);
    }
    forall c | c in s'.clients
      ensures ClientOk(s'.clients[c], PendingFor(c, s'.pending, r), r)
    {
      SendKeepsClient(setup, s, c);
      assert ClientOk(s.clients[c], PendingFor(c, s.pending, r), r);
    }
  }

  // -------- Client steps --------

  lemma ReceiveKeepsClient(t: ClientTask, max: nat, more: seq<Queued>, final: Region)
    requires ClientOk(t, more, final) && t.phase.Idle? && t.queue != []
    ensures ClientOk(OnClientMessage(t, max), more, final)
  {
    assert (t.queue + more)[1..] == t.queue[1..] + more;
  }

  /** The client steps change one task, and only in ways that keep its line and its store. */
  lemma ClientStepKeepsClient(setup: Setup, s: State, step: Step, c: nat)
    requires Inv(s) && Enabled(setup, s, step) && c in s.clients
    requires step.ClientReceive? || step.ClientSend? || step.ClientRest? || step.ClientHand?
    ensures var s', r := Apply(setup, s, step), s.dispatcher.core.region;
            c in s'.clients && ClientOk(s'.clients[c], PendingFor(c, s.pending, r), r)
  {
    hide Session.Sound, LineOk, PendingFor, OnClientMessage, TakenBy, OnRadio, Deliver, OnGatewayMessage, StartClients;
    var r := s.dispatcher.core.region;
    assert ClientOk(s.clients[c], PendingFor(c, s.pending, r), r);
    if step.chan == c && step.ClientReceive? {
      ReceiveKeepsClient(s.clients[c], setup.maxPackets, PendingFor(c, s.pending, r), r);
    }
  }

  lemma ClientStepKeeps(setup: Setup, s: State, step: Step)
    requires Inv(s) && Enabled(setup, s, step)
    requires step.ClientReceive? || step.ClientSend? || step.ClientRest? || step.ClientHand?
    ensures Inv(Apply(setup, s, step))
  {
    hide Session.Sound, LineOk, PendingFor, OnClientMessage, TakenBy, OnRadio, Deliver, OnGatewayMessage, StartClients;
    var s' := Apply(setup, s, step);
    assert s'.clients.Keys == s.clients.Keys;
    assert Shape(s') by {
      assert forall i | 0 <= i < |s'.pending| :: SendOk(s, s.pending[i]);
    }
    assert RegionInv(s') by {
      forall c | c in s'.clients
        ensures ClientOk(s'.clients[c], PendingFor(c, s.pending, s.dispatcher.core.region), s.dispatcher.core.region)
      {
        ClientStepKeepsClient(setup, s, step, c);
      }
    }
    assert StampsOk(s') by {
      if step.ClientSend? {
        var c, r := step.chan, s.dispatcher.core.region;
        assert ClientOk(s.clients[c], PendingFor(c, s.pending, r), r);
      }
    }
  }

  // -------- Every run --------

  lemma OtherStepsKeep(setup: Setup, s: State, step: Step)
    requires Inv(s) && Enabled(setup, s, step) && !step.DispatcherEvent? && !step.DispatcherSend?
    requires !step.ClientReceive? && !step.ClientSend? && !step.ClientRest? && !step.ClientHand?
    ensures Inv(Apply(setup, s, step))
  {
    hide Session.Sound, LineOk, PendingFor, ClientOk, SendOk;
    var s' := Apply(setup, s, step);
    assert s'.clients == s.clients && s'.pending == s.pending && s'.dispatcher == s.dispatcher;
    assert s'.log.attempts == s.log.attempts;
    SendOkFrame(s, s');
  }

  lemma SendOkFrame(s: State, s': State)
    requires s'.clients == s.clients && s'.pending == s.pending
    ensures forall i | 0 <= i < |s.pending| :: SendOk(s, s.pending[i]) == SendOk(s', s'.pending[i])
  {
  }

  lemma InvStep(setup: Setup, s: State, step: Step)
    requires Inv(s) && Enabled(setup, s, step)
    ensures Inv(Apply(setup, s, step))
  {
    if step.DispatcherEvent? {
      EventKeepsShape(setup, s, step);
      EventKeepsRegions(setup, s, step);
      hide Shape, RegionInv;
      assert StampsOk(Apply(setup, s, step));
    } else if step.DispatcherSend? {
      SendKeeps(setup, s, step);
    } else if step.ClientReceive? || step.ClientSend? || step.ClientRest? || step.ClientHand? {
      ClientStepKeeps(setup, s, step);
    } else {
      OtherStepsKeep(setup, s, step);
    }
  }

  lemma InvInitial(setup: Setup)
    ensures Inv(Initial(setup))
  {
  }

  lemma {:induction false} InvRun(setup: Setup, run: seq<State>, i: nat)
    requires IsRun(setup, run) && i < |run|
    ensures Inv(run[i])
  {
    hide Inv, Enabled, Apply, Initial;
    if i == 0 {
      InvInitial(setup);
    } else {
      InvRun(setup, run, i - 1);
      assert Next(setup, run[i - 1], run[i - 1 + 1]);
      var step :| Enabled(setup, run[i - 1], step) && run[i] == Apply(setup, run[i - 1], step);
      InvStep(setup, run[i - 1], step);
    }
  }

  lemma ReachableInv(setup: Setup, s: State)
    requires Reachable(setup, s)
    ensures Inv(s)
  {
    hide Inv;
    var run :| IsRun(setup, run) && run[|run| - 1] == s;
    InvRun(setup, run, |run| - 1);
  }

  /**
    In every reachable state: each packet sent to a router was stamped with the region that the dispatcher held when
    it dispatched that packet; a client at its select has an empty store; the table is the one of the update history
    and its routers are exactly the running tasks, of which none has stopped.
   */
  lemma RegionConsistency(setup: Setup, s: State)
    requires Reachable(setup, s)
    ensures forall i | 0 <= i < |s.log.attempts| :: s.log.attempts[i].region == s.log.attempts[i].held
    ensures forall c | c in s.clients ::
              !s.clients[c].phase.Stopped? && (s.clients[c].phase.Idle? ==> s.clients[c].store == [])
    ensures s.clients.Keys == Channels(s.dispatcher.core.table.routers)
    ensures Session.Sound(s.dispatcher)
  {
    ReachableInv(setup, s);
    assert forall c | c in s.clients ::
        ClientOk(s.clients[c], PendingFor(c, s.pending, s.dispatcher.core.region), s.dispatcher.core.region);
  }
}
