/**
  The four kinds of task and the bounded channels between them, as a step relation. A task that sends on a full
  channel waits in line with the channel's other senders, and free slots go to them in that order; service calls,
  timers and the radio may complete at any time. Shutdown is not modelled. The collection timer of a client is not a
  step here: module Client shows that it always finds an empty queue.
 */
module System {
  import opened Wrappers
  import opened Lines
  import opened Regions
  import opened Packet
  import opened Store
  import opened RoutingTable
  import opened Dispatcher
  import Client
  import Session

  const GATEWAY_CAPACITY := 10
  const DISPATCHER_CAPACITY := 20
  const BEACONER_CAPACITY := 10
  const CLIENT_CAPACITY := 10

  // -------- Messages --------

  /** A beacon's frequency, with the channel plan that it was chosen from. */
  datatype Beacon = Beacon(frequency: nat, source: RegionParams)

  datatype GatewayMessage =
    | Downlink(packet: Packet)
    | TransmitBeacon(beacon: Beacon)
    | ParamsChanged(params: RegionParams)

  datatype BeaconerMessage = ReceivedBeacon(packet: Packet) | PlanChanged(params: RegionParams)

  /** A message to a client, with the region that the dispatcher held when it decided to send it. */
  datatype Queued = Queued(message: ClientMessage, held: Region)

  /** A packet in a client's store, with that same region. */
  datatype Held = Held(p: QuePacket, held: Region)

  // -------- Tasks --------

  /** A task, or a caller of the local API. */
  datatype Task = DispatcherTask | GatewayTask | BeaconerTask | ClientOf(chan: nat) | ApiCaller(id: nat)

  /** At its select, or waiting to put a message on a channel, or about to remember the plan it forwarded. */
  datatype GatewayPhase =
    | Listening
    | SendingUplink(packet: Packet, received: nat)
    | SendingBeacon(packet: Packet)
    | Forwarding(params: RegionParams)
    | Remembering(params: RegionParams)

  datatype BeaconerPhase = AtSelect | Transmitting(beacon: Beacon)

  datatype ClientPhase = Idle | Draining | Handing(downlink: Packet) | Stopped

  datatype ClientTask = ClientTask(region: Region, queue: seq<Queued>, store: seq<Held>, phase: ClientPhase)

  /** One packet sent to a router: the region stamped on it, and the region held when it was dispatched. */
  datatype Attempt = Attempt(chan: nat, p: QuePacket, region: Region, held: Region)

  /** An uplink that the dispatcher took, the region it held then, and the channels of the routers that it is for. */
  datatype Taken = Taken(p: QuePacket, region: Region, targets: set<nat>)

  /** A packet that a router answered with. */
  datatype Answer = Answer(chan: nat, packet: Packet)

  /** What becomes of a beacon or downlink: it goes on the air, or is dropped for want of power or of a plan. */
  datatype Outcome = OnAir(power: nat) | NoPower | NoPlan

  datatype Transmission = Transmission(beacon: Beacon, outcome: Outcome)

  datatype Downlinked = Downlinked(packet: Packet, outcome: Outcome)

  /**
    What happened so far: the plans the dispatcher sent, the gateway took over and the beaconer took over; the
    uplinks the gateway heard, the dispatcher took and the clients sent; the answers the clients got and handed on, and
    the downlinks the gateway took; and the beacons that the beaconer made and the gateway took.
   */
  datatype Log = Log(
    sent: seq<RegionParams>, handled: seq<RegionParams>, planned: seq<RegionParams>,
    heard: seq<QuePacket>, taken: seq<Taken>, attempts: seq<Attempt>,
    answers: seq<Answer>, handed: seq<Answer>, downlinked: seq<Downlinked>,
    made: seq<Beacon>, transmissions: seq<Transmission>)

  /** Each line holds the senders that have asked for a slot of the channel and not used it yet. */
  datatype State = State(
    dispatcher: Session.State, pending: seq<Send>, dispatcherQueue: seq<DispatcherMessage>, dispatcherLine: seq<Task>,
    gateway: GatewayPhase, gatewayParams: Option<RegionParams>, gatewayQueue: seq<GatewayMessage>,
    gatewayLine: seq<Task>,
    beaconer: BeaconerPhase, beaconerParams: Option<RegionParams>, beaconerQueue: seq<BeaconerMessage>,
    clients: map<nat, ClientTask>,
    log: Log)

  datatype Setup = Setup(config: Config, region: Region, maxPackets: nat)

  ghost function Initial(setup: Setup): State {
    State(Session.Initial(setup.region), [], [], [], Listening, None, [], [], AtSelect, None, [], map[],
          Log([], [], [], [], [], [], [], [], [], [], []))
  }

  // -------- Steps --------

  datatype Step =
    | DispatcherEvent(event: Session.Event, sends: seq<Send>)
    | DispatcherSend
    | RadioPacket(rxpk: RxPk, received: nat)
    | GatewaySend
    | GatewayReceive
    | GatewayRemember
    | BeaconTick(frequency: nat)
    | BeaconerSend
    | BeaconerReceive
    | ClientReceive(chan: nat)
    | ClientSend(chan: nat, reply: Client.Reply)
    | ClientRest(chan: nat)
    | ClientHand(chan: nat)
    | ApiQuery(id: nat)
    | ApiSend(id: nat)

  function Channels(routers: Routers): set<nat> {
    set k | k in routers :: routers[k].chan
  }

  /** Whether the event takes the message at the head of the dispatcher's queue. */
  ghost predicate TakesHead(queue: seq<DispatcherMessage>, e: Session.Event) {
    match e
    case UplinkArrived(packet, received) => queue != [] && queue[0] == UplinkMessage(packet, received)
    case QueryArrived => queue != [] && queue[0] == QueryMessage
    case _ => true
  }

  predicate IsMessage(e: Session.Event) {
    e.UplinkArrived? || e.QueryArrived?
  }

  /** A slot of the gateway's channel is promised to this sender. */
  predicate GatewayGrants(s: State, t: Task) {
    Granted(s.gatewayLine, |s.gatewayQueue|, GATEWAY_CAPACITY, t)
  }

  /** A slot of the dispatcher's channel is promised to this sender. */
  predicate DispatcherGrants(s: State, t: Task) {
    Granted(s.dispatcherLine, |s.dispatcherQueue|, DISPATCHER_CAPACITY, t)
  }

  /** Whether the dispatcher can put this send on its channel. */
  predicate HasRoom(s: State, send: Send) {
    match send
    case ToGateway(_) => GatewayGrants(s, DispatcherTask)
    case ToRouter(c, _) => c in s.clients && |s.clients[c].queue| < CLIENT_CAPACITY
  }

  ghost predicate Enabled(setup: Setup, s: State, step: Step) {
    match step
    case DispatcherEvent(e, sends) =>
      && s.pending == [] && Session.Enabled(s.dispatcher, e)
      && TakesHead(s.dispatcherQueue, e) && Session.SendsFor(s.dispatcher, setup.config, e, sends)
    case DispatcherSend => s.pending != [] && HasRoom(s, s.pending[0])
    case RadioPacket(_, _) => s.gateway.Listening?
    case GatewaySend =>
      (match s.gateway
       case SendingUplink(_, _) => DispatcherGrants(s, GatewayTask)
       case SendingBeacon(_) => |s.beaconerQueue| < BEACONER_CAPACITY
       case Forwarding(_) => |s.beaconerQueue| < BEACONER_CAPACITY
       case _ => false)
    case GatewayReceive => s.gateway.Listening? && s.gatewayQueue != []
    case GatewayRemember => s.gateway.Remembering?
    case BeaconTick(frequency) =>
      s.beaconer.AtSelect? && s.beaconerParams.Some? && frequency in s.beaconerParams.value.frequencies
    case BeaconerSend => s.beaconer.Transmitting? && GatewayGrants(s, BeaconerTask)
    case BeaconerReceive => s.beaconer.AtSelect? && s.beaconerQueue != []
    case ClientReceive(c) => c in s.clients && s.clients[c].phase.Idle? && s.clients[c].queue != []
    case ClientSend(c, _) => c in s.clients && s.clients[c].phase.Draining? && s.clients[c].store != []
    case ClientRest(c) => c in s.clients && s.clients[c].phase.Draining? && s.clients[c].store == []
    case ClientHand(c) => c in s.clients && s.clients[c].phase.Handing? && GatewayGrants(s, ClientOf(c))
    case ApiQuery(id) => ApiCaller(id) !in s.dispatcherLine
    case ApiSend(id) => DispatcherGrants(s, ApiCaller(id))
  }

  /** New routers get a task that starts with the dispatcher's region. */
  function StartClients(clients: map<nat, ClientTask>, routers: Routers, region: Region): map<nat, ClientTask> {
    map c | c in clients.Keys + Channels(routers) ::
      if c in clients then clients[c] else ClientTask(region, [], [], Idle)
  }

  function PushHeld(store: seq<Held>, max: nat, x: Held): seq<Held> {
    var w := store + [x];
    if |w| > max then w[1..] else w
  }

  function OnClientMessage(t: ClientTask, max: nat): ClientTask
    requires t.queue != []
  {
    var head, rest := t.queue[0], t.queue[1..];
    match head.message
    case Uplink(packet, received) =>
      t.(queue := rest, store := PushHeld(t.store, max, Held(QuePacket(packet, received), head.held)),
         phase := Draining)
    case RegionChanged(region) => t.(queue := rest, region := region)
    case Stop => t.(queue := rest, phase := Stopped)
  }

  /** The phase after an answer: a failure ends the drain, a downlink is handed on first. */
  function AfterReply(reply: Client.Reply): ClientPhase {
    match reply
    case RouteFailed => Idle
    case Response(Some(packet)) => Handing(packet)
    case _ => Draining
  }

  /** The packet that a reply carries, if any. */
  function AnswersIn(c: nat, reply: Client.Reply): seq<Answer> {
    match reply
    case Response(Some(packet)) => [Answer(c, packet)]
    case _ => []
  }

  /** The dispatcher joins the gateway's line when its next send goes there. */
  function Joining(pending: seq<Send>): seq<Task> {
    if pending != [] && pending[0].ToGateway? then [DispatcherTask] else []
  }

  /** The uplink that an event takes, if it is one. */
  function TakenBy(d: Session.State, config: Config, e: Session.Event): seq<Taken> {
    match e
    case UplinkArrived(packet, received) =>
      var routers := d.core.table.routers;
      [Taken(QuePacket(packet, received), d.core.region,
             set k | k in TargetKeys(routers, config, packet) :: routers[k].chan)]
    case _ => []
  }

  function Deliver(s: State, send: Send): State
    requires HasRoom(s, send)
  {
    match send
    case ToGateway(p) =>
      s.(gatewayQueue := s.gatewayQueue + [ParamsChanged(p)], gatewayLine := Leave(s.gatewayLine, DispatcherTask),
         log := s.log.(sent := s.log.sent + [p]))
    case ToRouter(c, m) =>
      var t := s.clients[c];
      s.(clients := s.clients[c := t.(queue := t.queue + [Queued(m, s.dispatcher.core.region)])])
  }

  /** What the gateway does with a packet from the radio; one that does not parse is ignored. */
  function OnRadio(rxpk: RxPk, received: nat): GatewayPhase {
    match FromRxPk(rxpk)
    case Ok(packet) => if IsPotentialBeacon(packet) then SendingBeacon(packet) else SendingUplink(packet, received)
    case Err(_) => Listening
  }

  /** What the gateway can do with a packet to transmit. */
  function OutcomeUnder(plan: Option<RegionParams>): Outcome {
    match plan
    case None => NoPlan
    case Some(RegionParams(_, _, None)) => NoPower
    case Some(RegionParams(_, _, Some(power))) => OnAir(power)
  }

  function OnGatewayMessage(s: State): State
    requires s.gatewayQueue != []
  {
    var rest := s.(gatewayQueue := s.gatewayQueue[1..]);
    match s.gatewayQueue[0]
    case Downlink(packet) =>
      rest.(log := s.log.(downlinked := s.log.downlinked + [Downlinked(packet, OutcomeUnder(s.gatewayParams))]))
    case TransmitBeacon(beacon) =>
      rest.(log := s.log.(transmissions := s.log.transmissions + [Transmission(beacon, OutcomeUnder(s.gatewayParams))]))
    case ParamsChanged(p) => rest.(gateway := Forwarding(p))
  }

  ghost function Apply(setup: Setup, s: State, step: Step): State
    requires Enabled(setup, s, step)
  {
    match step
    case DispatcherEvent(e, sends) =>
      var d := Session.Step(s.dispatcher, e);
      s.(dispatcher := d, pending := sends,
         dispatcherQueue := if IsMessage(e) then s.dispatcherQueue[1..] else s.dispatcherQueue,
         gatewayLine := s.gatewayLine + Joining(sends),
         clients := StartClients(s.clients, d.core.table.routers, d.core.region),
         log := s.log.(taken := s.log.taken + TakenBy(s.dispatcher, setup.config, e)))
    case DispatcherSend =>
      var s' := Deliver(s, s.pending[0]);
      s'.(pending := s.pending[1..], gatewayLine := s'.gatewayLine + Joining(s.pending[1..]))
    case RadioPacket(rxpk, received) =>
      (match OnRadio(rxpk, received)
       case SendingUplink(packet, _) =>
         s.(gateway := SendingUplink(packet, received), dispatcherLine := s.dispatcherLine + [GatewayTask],
            log := s.log.(heard := s.log.heard + [QuePacket(packet, received)]))
       case phase => s.(gateway := phase))
    case GatewaySend =>
      (match s.gateway
       case SendingUplink(packet, received) =>
         s.(gateway := Listening, dispatcherQueue := s.dispatcherQueue + [UplinkMessage(packet, received)],
            dispatcherLine := Leave(s.dispatcherLine, GatewayTask))
       case SendingBeacon(packet) =>
         s.(gateway := Listening, beaconerQueue := s.beaconerQueue + [ReceivedBeacon(packet)])
       case Forwarding(p) =>
         s.(gateway := Remembering(p), beaconerQueue := s.beaconerQueue + [PlanChanged(p)]))
    case GatewayReceive => OnGatewayMessage(s)
    case GatewayRemember =>
      s.(gateway := Listening, gatewayParams := Some(s.gateway.params),
         log := s.log.(handled := s.log.handled + [s.gateway.params]))
    case BeaconTick(frequency) =>
      var beacon := Beacon(frequency, s.beaconerParams.value);
      s.(beaconer := Transmitting(beacon), gatewayLine := s.gatewayLine + [BeaconerTask],
         log := s.log.(made := s.log.made + [beacon]))
    case BeaconerSend =>
      s.(beaconer := AtSelect, gatewayQueue := s.gatewayQueue + [TransmitBeacon(s.beaconer.beacon)],
         gatewayLine := Leave(s.gatewayLine, BeaconerTask))
    case BeaconerReceive =>
      var rest := s.(beaconerQueue := s.beaconerQueue[1..]);
      (match s.beaconerQueue[0]
       case ReceivedBeacon(_) => rest
       case PlanChanged(p) => rest.(beaconerParams := Some(p), log := s.log.(planned := s.log.planned + [p])))
    case ClientReceive(c) => s.(clients := s.clients[c := OnClientMessage(s.clients[c], setup.maxPackets)])
    case ClientSend(c, reply) =>
      var t := s.clients[c];
      s.(clients := s.clients[c := t.(store := t.store[1..], phase := AfterReply(reply))],
         gatewayLine := s.gatewayLine + if AfterReply(reply).Handing? then [ClientOf(c)] else [],
         log := s.log.(attempts := s.log.attempts + [Attempt(c, t.store[0].p, t.region, t.store[0].held)],
                       answers := s.log.answers + AnswersIn(c, reply)))
    case ClientRest(c) => s.(clients := s.clients[c := s.clients[c].(phase := Idle)])
    case ClientHand(c) =>
      var t := s.clients[c];
      s.(clients := s.clients[c := t.(phase := Draining)],
         gatewayQueue := s.gatewayQueue + [Downlink(t.phase.downlink)],
         gatewayLine := Leave(s.gatewayLine, ClientOf(c)),
         log := s.log.(handed := s.log.handed + [Answer(c, t.phase.downlink)]))
    case ApiQuery(id) => s.(dispatcherLine := s.dispatcherLine + [ApiCaller(id)])
    case ApiSend(id) =>
      s.(dispatcherQueue := s.dispatcherQueue + [QueryMessage],
         dispatcherLine := Leave(s.dispatcherLine, ApiCaller(id)))
  }

  ghost predicate Next(setup: Setup, s: State, s': State) {
    exists step :: Enabled(setup, s, step) && s' == Apply(setup, s, step)
  }

  /** A run of the system from its start. */
  ghost predicate IsRun(setup: Setup, run: seq<State>) {
    && run != [] && run[0] == Initial(setup)
    && forall i | 0 <= i < |run| - 1 :: Next(setup, run[i], run[i + 1])
  }

  ghost predicate Reachable(setup: Setup, s: State) {
    exists run :: IsRun(setup, run) && run[|run| - 1] == s
  }

  lemma ReachableStep(setup: Setup, s: State, step: Step)
    requires Reachable(setup, s) && Enabled(setup, s, step)
    ensures Reachable(setup, Apply(setup, s, step))
  {
    hide Enabled, Apply, Initial;
    var run :| IsRun(setup, run) && run[|run| - 1] == s;
    var s' := Apply(setup, s, step);
    var longer := run + [s'];
    assert Next(setup, s, s');
    forall i | 0 <= i < |longer| - 1
      ensures Next(setup, longer[i], longer[i + 1])
    {
      assert i < |run| - 1 ==> Next(setup, run[i], run[i + 1]);
    }
    assert IsRun(setup, longer) && longer[|longer| - 1] == s';
  }

  lemma ReachableInitial(setup: Setup)
    ensures Reachable(setup, Initial(setup))
  {
    hide Enabled, Apply, Initial;
    assert IsRun(setup, [Initial(setup)]);
  }
}
