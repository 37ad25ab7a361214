/** A router's client: it forwards packets to one router and hands the answers back. */
module Client {
  import opened Wrappers
  import opened Regions
  import opened Packet
  import opened Store

  const STORE_GC_INTERVAL := 60_000

  /** What the router's service answers: an error, no message, a message that is no response, or a response. */
  datatype Reply = RouteFailed | NoMessage | NotAResponse | Response(downlink: Option<Packet>)

  /** The answer to each send, by its number. */
  type Network = nat -> Reply

  /** One packet sent, stamped with the region that the client held. */
  datatype Attempt = Attempt(p: QuePacket, region: Region)

  function DownlinkOf(reply: Reply): seq<Packet> {
    if reply.Response? && reply.downlink.Some? then [reply.downlink.value] else []
  }

  // -------- The client, handler by handler --------

  datatype ClientState =
    ClientState(region: Region, waiting: seq<QuePacket>, attempts: seq<Attempt>, downlinks: seq<Packet>)

  /** Pop and send until the queue is empty or a send fails. */
  function Drain(s: ClientState, net: Network): ClientState
    decreases |s.waiting|
  {
    if s.waiting == [] then s
    else
      var reply := net(|s.attempts|);
      var sent := s.(waiting := s.waiting[1..], attempts := s.attempts + [Attempt(s.waiting[0], s.region)]);
      if reply.RouteFailed? then sent
      else Drain(sent.(downlinks := s.downlinks + DownlinkOf(reply)), net)
  }

  datatype Event =
    | UplinkEvent(p: QuePacket)
    | RegionEvent(region: Region)
    | GcEvent(clock: Clock)
    | ClosedEvent
    | StopEvent

  function OnEvent(s: ClientState, max: nat, e: Event, net: Network): ClientState {
    match e
    case UplinkEvent(p) => Drain(s.(waiting := Push(s.waiting, max, p)), net)
    case RegionEvent(region) => s.(region := region)
    case GcEvent(clock) => s.(waiting := Retain(s.waiting, STORE_GC_INTERVAL, clock, 0))
    case ClosedEvent => s
    case StopEvent => s
  }

  /** The state after a list of events, of which none after a stop is handled. */
  function RunSpec(s: ClientState, max: nat, events: seq<Event>, net: Network): ClientState
    decreases |events|
  {
    if events == [] || events[0].StopEvent? then s
    else RunSpec(OnEvent(s, max, events[0], net), max, events[1..], net)
  }

  class RouterClient {
    var region: Region
    const store: RouterStore
    var attempts: seq<Attempt>
    var downlinks: seq<Packet>

    ghost predicate Valid()
      reads this, store
    {
      store.Valid()
    }

    ghost function State(): ClientState
      reads this, store
    {
      ClientState(region, store.waiting, attempts, downlinks)
    }

    constructor (region: Region, maxPackets: nat)
      ensures Valid() && fresh(store) && store.maxPackets == maxPackets
      ensures State() == ClientState(region, [], [], [])
    {
      this.region := region;
      store := new RouterStore(maxPackets);
      attempts, downlinks := [], [];
    }

    method SendWaitingPackets(net: Network) returns (ok: bool)
      requires Valid()
      modifies this, store
      ensures Valid() && State() == Drain(old(State()), net)
      ensures ok ==> store.waiting == []
    {
      while true
        invariant Valid() && Drain(State(), net) == Drain(old(State()), net)
        decreases |store.waiting|
      {
        var head := store.PopWaitingPacket();
        if head.None? {
          return true;
        }
        var reply := net(|attempts|);
        attempts := attempts + [Attempt(head.value, region)];
        if reply.RouteFailed? {
          return false;
        }
        downlinks := downlinks + DownlinkOf(reply);
      }
    }

    method HandleUplink(uplink: Packet, received: nat, net: Network) returns (ok: bool)
      requires Valid()
      modifies this, store
      ensures Valid()
      ensures State() == OnEvent(old(State()), store.maxPackets, UplinkEvent(QuePacket(uplink, received)), net)
    {
      store.StoreWaitingPacket(uplink, received);
      ok := SendWaitingPackets(net);
    }

    method Run(events: seq<Event>, net: Network)
      requires Valid()
      modifies this, store
      ensures Valid() && State() == RunSpec(old(State()), store.maxPackets, events, net)
    {
      var i := 0;
      while i < |events|
        invariant 0 <= i <= |events|
        invariant Valid()
        invariant RunSpec(State(), store.maxPackets, events[i..], net)
               == RunSpec(old(State()), store.maxPackets, events, net)
      {
        assert events[i..] == [events[i]] + events[i + 1..];
        match events[i] {
          case UplinkEvent(p) =>
            var _ := HandleUplink(p.packet, p.received, net);
          case RegionEvent(r) =>
            region := r;
          case GcEvent(clock) =>
            var _ := store.GcWaitingPackets(STORE_GC_INTERVAL, clock);
          case ClosedEvent =>
          case StopEvent =>
            return;
        }
        i := i + 1;
      }
    }
  }

  // -------- The queue never holds anything over --------

  /** A client without a queue: each uplink is sent at once, stamped with the region of the latest change. */
  function Direct(region: Region, events: seq<Event>): seq<Attempt>
    decreases |events|
  {
    if events == [] then []
    else match events[0]
      case UplinkEvent(p) => [Attempt(p, region)] + Direct(region, events[1..])
      case RegionEvent(r) => Direct(r, events[1..])
      case GcEvent(_) => Direct(region, events[1..])
      case ClosedEvent => Direct(region, events[1..])
      case StopEvent => []
  }

  /** The downlinks that the answers to sends `from`, `from + 1`, ... carry, over `n` sends. */
  function Answers(net: Network, from: nat, n: nat): seq<Packet>
    decreases n
  {
    if n == 0 then [] else DownlinkOf(net(from)) + Answers(net, from + 1, n - 1)
  }

  lemma OneEvent(s: ClientState, max: nat, e: Event, net: Network)
    requires s.waiting == [] && max > 0
    ensures var s' := OnEvent(s, max, e, net);
            && s'.waiting == []
            && s'.region == (if e.RegionEvent? then e.region else s.region)
            && s'.attempts == s.attempts + (if e.UplinkEvent? then [Attempt(e.p, s.region)] else [])
            && s'.downlinks == s.downlinks + (if e.UplinkEvent? then DownlinkOf(net(|s.attempts|)) else [])
  {
    if e.UplinkEvent? {
      assert Push([], max, e.p) == [e.p];
      assert [e.p][1..] == [];
      var sent := s.(waiting := [], attempts := s.attempts + [Attempt(e.p, s.region)]);
      var done := sent.(downlinks := s.downlinks + DownlinkOf(net(|s.attempts|)));
      assert Drain(done, net) == done;
      assert Drain(s.(waiting := [e.p]), net) == if net(|s.attempts|).RouteFailed? then sent else done;
    }
  }

  /**
    The client refines the client without a queue: whatever the network answers, every uplink handled is sent
    exactly once, in arrival order, under the region last announced before it, and exactly the downlinks in the
    answers are handed on. The queue is empty again after every event, so a collection pass finds nothing.
   */
  lemma {:induction false} QueueIsTransparent(s: ClientState, max: nat, events: seq<Event>, net: Network)
    requires s.waiting == [] && max > 0
    ensures var s' := RunSpec(s, max, events, net);
            && s'.waiting == []
            && s'.attempts == s.attempts + Direct(s.region, events)
            && s'.downlinks == s.downlinks + Answers(net, |s.attempts|, |Direct(s.region, events)|)
    decreases |events|
  {
    if events == [] || events[0].StopEvent? {
    } else {
      OneEvent(s, max, events[0], net);
      QueueIsTransparent(OnEvent(s, max, events[0], net), max, events[1..], net);
    }
  }

  /** With no room for a single packet every uplink is dropped before it is sent. */
  lemma {:induction false} NoRoomNoSends(s: ClientState, events: seq<Event>, net: Network)
    requires s.waiting == []
    ensures var s' := RunSpec(s, 0, events, net);
            s'.waiting == [] && s'.attempts == s.attempts && s'.downlinks == s.downlinks
    decreases |events|
  {
    if events == [] || events[0].StopEvent? {
    } else {
      NoRoomNoSends(OnEvent(s, 0, events[0], net), events[1..], net);
    }
  }

  function Stamped(packets: seq<QuePacket>, region: Region): seq<Attempt> {
    if packets == [] then [] else [Attempt(packets[0], region)] + Stamped(packets[1..], region)
  }

  /** Draining a queue of any length sends a prefix in order, and stops short only right after a failed send. */
  lemma {:induction false} DrainSendsPrefix(s: ClientState, net: Network) returns (n: nat)
    ensures var s' := Drain(s, net);
            && n <= |s.waiting| && s'.waiting == s.waiting[n..] && s'.region == s.region
            && s'.attempts == s.attempts + Stamped(s.waiting[..n], s.region)
            && |s'.attempts| == |s.attempts| + n
            && (forall k | |s.attempts| <= k < |s.attempts| + n - 1 :: !net(k).RouteFailed?)
            && (n < |s.waiting| ==> n > 0 && net(|s.attempts| + n - 1).RouteFailed?)
    decreases |s.waiting|
  {
    n := 0;
    if s.waiting == [] {
    } else {
      var reply := net(|s.attempts|);
      var sent := s.(waiting := s.waiting[1..], attempts := s.attempts + [Attempt(s.waiting[0], s.region)]);
      var m := 0;
      if !reply.RouteFailed? {
        m := DrainSendsPrefix(sent.(downlinks := s.downlinks + DownlinkOf(reply)), net);
      }
      n := m + 1;
      assert s.waiting[..n][1..] == s.waiting[1..][..m];
    }
  }

  // -------- Which answers are handed on --------

  /** One uplink from an empty queue: a packet in the answer is handed on, and nothing else is. */
  lemma OneDownlink(s: ClientState, max: nat, p: QuePacket, net: Network)
    requires s.waiting == [] && max > 0
    ensures var s', reply := OnEvent(s, max, UplinkEvent(p), net), net(|s.attempts|);
            && (forall d :: reply == Response(Some(d)) ==> s'.downlinks == s.downlinks + [d])
            && ((forall d :: reply != Response(Some(d))) ==> s'.downlinks == s.downlinks)
  {
    OneEvent(s, max, UplinkEvent(p), net);
    var reply := net(|s.attempts|);
    if reply.Response? && reply.downlink.Some? {
      assert reply == Response(Some(reply.downlink.value));
    }
  }

  /** The sends `sends`, in order, are those from `from` on, `n` of them, that were answered with a packet. */
  ghost predicate AnsweredSends(net: Network, from: nat, n: nat, sends: seq<nat>) {
    && (forall i, j | 0 <= i < j < |sends| :: sends[i] < sends[j])
    && forall k :: k in sends <==> from <= k < from + n && net(k).Response? && net(k).downlink.Some?
  }

  lemma AnsweredCons(net: Network, from: nat, n: nat, rest: seq<nat>)
    requires n > 0 && AnsweredSends(net, from + 1, n - 1, rest)
    ensures net(from).Response? && net(from).downlink.Some? ==> AnsweredSends(net, from, n, [from] + rest)
    ensures !(net(from).Response? && net(from).downlink.Some?) ==> AnsweredSends(net, from, n, rest)
  {
    assert forall i | 0 <= i < |rest| :: rest[i] in rest;
  }

  lemma {:induction false} AnswersExact(net: Network, from: nat, n: nat) returns (sends: seq<nat>)
    ensures AnsweredSends(net, from, n, sends)
    ensures |Answers(net, from, n)| == |sends|
    ensures forall i | 0 <= i < |sends| :: net(sends[i]) == Response(Some(Answers(net, from, n)[i]))
    decreases n
  {
    if n == 0 {
      sends := [];
    } else {
      var rest := AnswersExact(net, from + 1, n - 1);
      AnsweredCons(net, from, n, rest);
      hide AnsweredSends;
      var reply, more := net(from), Answers(net, from + 1, n - 1);
      sends := if reply.Response? && reply.downlink.Some? then [from] + rest else rest;
      assert Answers(net, from, n) == DownlinkOf(reply) + more;
      hide Answers;
    }
  }

  /**
    Over a run the packets handed on are those of exactly the sends that were answered with one, in the order of the
    sends.
   */
  lemma DownlinksExact(s: ClientState, max: nat, events: seq<Event>, net: Network) returns (sends: seq<nat>)
    requires s.waiting == [] && max > 0
    ensures var s' := RunSpec(s, max, events, net);
            && |s'.attempts| >= |s.attempts|
            && AnsweredSends(net, |s.attempts|, |s'.attempts| - |s.attempts|, sends)
            && |s'.downlinks| == |s.downlinks| + |sends| && s.downlinks <= s'.downlinks
            && forall i | 0 <= i < |sends| :: net(sends[i]) == Response(Some(s'.downlinks[|s.downlinks| + i]))
  {
    QueueIsTransparent(s, max, events, net);
    hide RunSpec;
    sends := AnswersExact(net, |s.attempts|, |Direct(s.region, events)|);
  }
}
