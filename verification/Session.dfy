/** The dispatcher's run loop: gateway sessions, the changes between them, and what a whole run keeps. */
module Session {
  import opened Regions
  import opened Packet
  import opened RoutingTable
  import opened Dispatcher

  /** Choosing a gateway, running with one, or pausing after one; messages wait while choosing. */
  datatype Phase = Selecting | InSession | Changing

  datatype Event =
    | SetupFailed(requested: bool)
    | SetupDone(defaults: RegionParams)
    | RegionUpdate(region: RegionResponse)
    | RoutingUpdate(routing: RoutingResponse, starts: nat -> Starts)
    | CheckPassed
    | SessionEnded
    | PauseOver
    | UplinkArrived(packet: Packet, received: nat)
    | QueryArrived

  /**
    What happened so far: all applied routing updates, the heights accepted in this session, and the heights at which
    routing streams were requested.
   */
  datatype Log = Log(history: History, routingHeights: seq<nat>, regionHeights: seq<nat>, requests: seq<nat>)

  datatype State = State(core: Core, phase: Phase, log: Log)

  function Initial(region: Region): State {
    State(Core(region, 0, 0, 0, NO_ROUTERS), Selecting, Log([], [], [], []))
  }

  predicate Enabled(s: State, e: Event) {
    match e
    case SetupFailed(_) => s.phase.Selecting?
    case SetupDone(_) => s.phase.Selecting?
    case PauseOver => s.phase.Changing?
    case UplinkArrived(_, _) => !s.phase.Selecting?
    case QueryArrived => !s.phase.Selecting?
    case _ => s.phase.InSession?
  }

  /** The pause handles at most one message before the next gateway is chosen. */
  function AfterMessage(phase: Phase): Phase {
    if phase.Changing? then Selecting else phase
  }

  function Change(s: State): State {
    State(OnGatewayChange(s.core), Changing, s.log.(routingHeights := [], regionHeights := []))
  }

  /** A routing stream is requested from the current height on. */
  function Request(s: State): State {
    s.(log := s.log.(requests := s.log.requests + [s.core.routingHeight]))
  }

  function Step(s: State, e: Event): State
    requires Enabled(s, e)
  {
    match e
    case SetupFailed(requested) => Change(if requested then Request(s) else s)
    case SetupDone(_) => Request(s).(phase := InSession)
    case RegionUpdate(r) =>
      if RegionAccepted(s.core, r) then
        s.(core := OnRegion(s.core, r), log := s.log.(regionHeights := s.log.regionHeights + [r.height]))
      else s
    case RoutingUpdate(r, starts) =>
      if RoutingAccepted(s.core, r) then
        s.(core := OnRouting(s.core, r, starts),
           log := s.log.(history := s.log.history + UpdatesOf(r.routings.value, starts),
                         routingHeights := s.log.routingHeights + [r.height]))
      else s
    case CheckPassed => s.(core := s.core.(gatewayRetry := 0))
    case SessionEnded => Change(s)
    case PauseOver => s.(phase := Selecting)
    case UplinkArrived(_, _) => s.(phase := AfterMessage(s.phase))
    case QueryArrived => s.(phase := AfterMessage(s.phase))
  }

  /** The state after a list of events, of which those that cannot happen are skipped. */
  function Exec(s: State, events: seq<Event>): State {
    if events == [] then s
    else
      var t, e := Exec(s, events[..|events| - 1]), events[|events| - 1];
      if Enabled(t, e) then Step(t, e) else t
  }

  // -------- The messages each event sends --------

  /** The channels that get a stop while the updates are applied. */
  function StoppedBy(t: Table, updates: seq<Update>): set<nat> {
    if updates == [] then {}
    else
      var front, u := updates[..|updates| - 1], updates[|updates| - 1];
      StoppedBy(t, front) + StoppedChannels(PutUris(ApplyAll(t, front), u, 0).routers, u.routing)
  }

  /** The channels, each once, in some order. */
  ghost predicate IsOrder(order: seq<nat>, channels: set<nat>) {
    |order| == |channels| && forall c | c in channels :: c in order
  }

  /** A list of sends that an event may cause: broadcasts go out in any order. */
  ghost predicate SendsFor(s: State, config: Config, e: Event, sends: seq<Send>) {
    match e
    case SetupDone(defaults) => sends == [ToGateway(defaults)]
    case RegionUpdate(r) =>
      if RegionAccepted(s.core, r) then
        exists order :: OrderOf(order, s.core.table.routers, s.core.table.routers.Keys)
                     && sends == [ToGateway(r.params.value)] + Broadcast(order, RegionChanged(r.params.value.region))
      else sends == []
    case RoutingUpdate(r, starts) =>
      if RoutingAccepted(s.core, r) then
        var stopped := StoppedBy(s.core.table, UpdatesOf(r.routings.value, starts));
        exists order: seq<nat> :: IsOrder(order, stopped) && sends == Broadcast(order, Stop)
      else sends == []
    case UplinkArrived(packet, received) =>
      exists order :: OrderOf(order, s.core.table.routers, TargetKeys(s.core.table.routers, config, packet))
                   && sends == Broadcast(order, Uplink(packet, received))
    case _ => sends == []
  }

  // -------- What every run keeps --------

  /** Accepted heights grow strictly from above zero, and the current height is the last of them. */
  ghost predicate Ascending(heights: seq<nat>, current: nat) {
    && (forall i, j | 0 <= i < j < |heights| :: heights[i] < heights[j])
    && (forall i | 0 <= i < |heights| :: heights[i] > 0)
    && current == if heights == [] then 0 else heights[|heights| - 1]
  }

  ghost predicate Sound(s: State) {
    && s.core.table == TableAfter(s.log.history)
    && Ascending(s.log.routingHeights, s.core.routingHeight)
    && Ascending(s.log.regionHeights, s.core.regionHeight)
    && (!s.phase.InSession? ==> s.log.routingHeights == [] && s.log.regionHeights == [])
    && (forall i | 0 <= i < |s.log.requests| :: s.log.requests[i] == 0)
  }

  lemma {:induction false} ApplyAllExtends(h: History, updates: seq<Update>)
    ensures ApplyAll(TableAfter(h), updates) == TableAfter(h + updates)
  {
    if updates == [] {
      assert h + updates == h;
    } else {
      var front := updates[..|updates| - 1];
      ApplyAllExtends(h, front);
      assert (h + updates)[..|h + updates| - 1] == h + front;
    }
  }

  lemma AscendingGrows(heights: seq<nat>, current: nat, next: nat)
    requires Ascending(heights, current) && next > current
    ensures Ascending(heights + [next], next)
  {
  }

  lemma SoundStep(s: State, e: Event)
    requires Sound(s) && Enabled(s, e)
    ensures Sound(Step(s, e))
  {
    hide TableAfter, ApplyAll, UpdatesOf;
    if e.RoutingUpdate? && RoutingAccepted(s.core, e.routing) {
      ApplyAllExtends(s.log.history, UpdatesOf(e.routing.routings.value, e.starts));
      AscendingGrows(s.log.routingHeights, s.core.routingHeight, e.routing.height);
      hide Ascending;
    } else if e.RegionUpdate? && RegionAccepted(s.core, e.region) {
      AscendingGrows(s.log.regionHeights, s.core.regionHeight, e.region.height);
      hide Ascending;
    }
  }

  /**
    Over every run: the table is the one of all applied updates; within a session the accepted routing and region
    heights are positive and strictly increasing; and every routing stream is requested at height 0.
   */
  lemma {:induction false} RunIsSound(region: Region, events: seq<Event>)
    ensures Sound(Exec(Initial(region), events))
  {
    if events == [] {
    } else {
      RunIsSound(region, events[..|events| - 1]);
      var t, e := Exec(Initial(region), events[..|events| - 1]), events[|events| - 1];
      if Enabled(t, e) {
        SoundStep(t, e);
      }
    }
  }

  // -------- The retry count --------

  /** The events of the list that did happen. */
  function Happened(s: State, events: seq<Event>): seq<Event> {
    if events == [] then []
    else
      var front, e := events[..|events| - 1], events[|events| - 1];
      Happened(s, front) + if Enabled(Exec(s, front), e) then [e] else []
  }

  predicate IsChange(e: Event) {
    e.SetupFailed? || e.SessionEnded?
  }

  /** The number of gateway changes among the events. */
  function Changes(events: seq<Event>): nat {
    if events == [] then 0 else (if IsChange(events[0]) then 1 else 0) + Changes(events[1..])
  }

  /** No check passes from event `j` on, and `j` is the start or right after a passing check. */
  ghost predicate LastCheckBefore(events: seq<Event>, j: nat) {
    && j <= |events| && (j > 0 ==> events[j - 1].CheckPassed?)
    && forall i | j <= i < |events| :: !events[i].CheckPassed?
  }

  lemma {:induction false} ChangesAppend(events: seq<Event>, e: Event)
    ensures Changes(events + [e]) == Changes(events) + if IsChange(e) then 1 else 0
  {
    if events == [] {
    } else {
      ChangesAppend(events[1..], e);
      assert (events + [e])[1..] == events[1..] + [e];
    }
  }

  /** Over every run the retry count is the number of gateway changes after the last passing check. */
  lemma {:induction false} RetryCountsChanges(region: Region, events: seq<Event>) returns (j: nat)
    ensures var happened := Happened(Initial(region), events);
            LastCheckBefore(happened, j)
            && Exec(Initial(region), events).core.gatewayRetry == Changes(happened[j..])
  {
    var s := Initial(region);
    var happened := Happened(s, events);
    if events == [] {
      j := 0;
    } else {
      var front, e := events[..|events| - 1], events[|events| - 1];
      var before := Happened(s, front);
      j := RetryCountsChanges(region, front);
      if Enabled(Exec(s, front), e) {
        if e.CheckPassed? {
          j := |happened|;
        } else {
          ChangesAppend(before[j..], e);
          assert happened[j..] == before[j..] + [e];
        }
      } else {
        assert happened == before;
      }
    }
  }

  /** No routing update ever sends a stop. */
  lemma {:induction false} NeverStopped(h: History, updates: seq<Update>)
    ensures StoppedBy(TableAfter(h), updates) == {}
  {
    if updates == [] {
    } else {
      var front, u := updates[..|updates| - 1], updates[|updates| - 1];
      NeverStopped(h, front);
      ApplyAllExtends(h, front);
      TableConsistent(h + front);
      RemovalRemovesNothing(TableAfter(h + front), u);
    }
  }

  // -------- Which events can happen, and which updates are accepted --------

  /** While a gateway is chosen nothing else happens, and a pause ends with its time or with one message. */
  lemma PhaseRules(s: State, e: Event)
    ensures Enabled(s, e) <==>
            match s.phase
            case Selecting => e.SetupFailed? || e.SetupDone?
            case Changing => e.PauseOver? || e.UplinkArrived? || e.QueryArrived?
            case InSession => !e.SetupFailed? && !e.SetupDone? && !e.PauseOver?
    ensures Enabled(s, e) ==>
            match s.phase
            case Selecting => Step(s, e).phase == if e.SetupDone? then InSession else Changing
            case Changing => Step(s, e).phase == Selecting
            case InSession => Step(s, e).phase == if e.SessionEnded? then Changing else InSession
  {
  }

  /** In a session exactly the updates above zero and above all accepted before, and decodable, are accepted. */
  lemma AcceptedExactly(s: State, e: Event)
    requires Sound(s) && s.phase.InSession?
    ensures e.RegionUpdate? ==>
            var u, s' := e.region, Step(s, e);
            if u.params.Some? && u.height > 0
               && (forall i | 0 <= i < |s.log.regionHeights| :: s.log.regionHeights[i] < u.height)
            then s'.log.regionHeights == s.log.regionHeights + [u.height] && s'.core.region == u.params.value.region
            else s' == s
    ensures e.RoutingUpdate? ==>
            var u, s' := e.routing, Step(s, e);
            if u.routings.Some? && u.height > 0
               && (forall i | 0 <= i < |s.log.routingHeights| :: s.log.routingHeights[i] < u.height)
            then s'.log.routingHeights == s.log.routingHeights + [u.height] && s'.core.region == s.core.region
            else s' == s
  {
    hide TableAfter, ApplyAll, UpdatesOf;
  }
}
