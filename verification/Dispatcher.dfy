/** The dispatcher: routing and region updates from the current gateway service, and uplinks to the routers. */
module Dispatcher {
  import opened Bits
  import opened Wrappers
  import opened Regions
  import opened Routing
  import opened Packet
  import opened RoutingTable

  datatype ClientMessage = Uplink(packet: Packet, received: nat) | RegionChanged(region: Region) | Stop

  /** A message put on another task's channel. */
  datatype Send = ToGateway(params: RegionParams) | ToRouter(chan: nat, message: ClientMessage)

  /** A message on the dispatcher's own channel. */
  datatype DispatcherMessage = UplinkMessage(packet: Packet, received: nat) | QueryMessage

  datatype Config = Config(defaultRouters: Option<seq<KeyedUri>>, lookup: EuiLookup)

  /** A region update of a given height; `None` is one that cannot be decoded. */
  datatype RegionResponse = RegionResponse(height: u64, params: Option<RegionParams>)

  /** A routing update of a given height; `None` is one, or an item of one, that cannot be decoded. */
  datatype RoutingResponse = RoutingResponse(height: u64, routings: Option<seq<Option<Routing>>>)

  datatype Core =
    Core(region: Region, routingHeight: u64, regionHeight: u64, gatewayRetry: nat, table: Table)

  // -------- What the handlers do --------

  predicate RegionAccepted(c: Core, r: RegionResponse) {
    r.height > c.regionHeight && r.params.Some?
  }

  function OnRegion(c: Core, r: RegionResponse): Core {
    if RegionAccepted(c, r) then c.(regionHeight := r.height, region := r.params.value.region) else c
  }

  predicate RoutingAccepted(c: Core, r: RoutingResponse) {
    r.height > c.routingHeight && r.routings.Some?
  }

  /** The updates that an accepted response applies: its decodable items, in order. */
  function UpdatesOf(routings: seq<Option<Routing>>, starts: nat -> Starts): seq<Update> {
    if routings == [] then []
    else
      var last := |routings| - 1;
      UpdatesOf(routings[..last], starts)
      + if routings[last].Some? then [Update(routings[last].value, starts(last))] else []
  }

  function ApplyAll(t: Table, updates: seq<Update>): Table {
    if updates == [] then t else ApplyUpdate(ApplyAll(t, updates[..|updates| - 1]), updates[|updates| - 1])
  }

  function OnRouting(c: Core, r: RoutingResponse, starts: nat -> Starts): Core {
    if RoutingAccepted(c, r) then
      c.(table := ApplyAll(c.table, UpdatesOf(r.routings.value, starts)), routingHeight := r.height)
    else c
  }

  function OnGatewayChange(c: Core): Core {
    c.(routingHeight := 0, regionHeight := 0, gatewayRetry := c.gatewayRetry + 1)
  }

  /** The routers whose routing matches the packet. */
  function MatchedKeys(routers: Routers, config: Config, packet: Packet): set<RouterKey> {
    set k | k in routers && routers[k].routing.MatchesRoutingInfo(packet.routing, config.lookup)
  }

  /** The routers that take a packet that no routing matches. */
  function DefaultKeys(routers: Routers, config: Config): set<RouterKey> {
    if config.defaultRouters.Some? then set k | k in routers && k.uri in config.defaultRouters.value else {}
  }

  function TargetKeys(routers: Routers, config: Config, packet: Packet): set<RouterKey> {
    var matched := MatchedKeys(routers, config, packet);
    if matched != {} then matched else DefaultKeys(routers, config)
  }

  /** The channel is that of one of the given routers. */
  ghost predicate Serves(c: nat, routers: Routers, keys: set<RouterKey>) {
    exists k :: k in keys && k in routers && routers[k].chan == c
  }

  /** The channels of the given routers, each once, in some order. */
  ghost predicate OrderOf(order: seq<nat>, routers: Routers, keys: set<RouterKey>) {
    && (forall i, j | 0 <= i < j < |order| :: order[i] != order[j])
    && (forall k | k in keys && k in routers :: routers[k].chan in order)
    && (forall i | 0 <= i < |order| :: Serves(order[i], routers, keys))
  }

  function Broadcast(order: seq<nat>, message: ClientMessage): seq<Send> {
    seq(|order|, i requires 0 <= i < |order| => ToRouter(order[i], message))
  }

  lemma ExtendOrder(order: seq<nat>, t: Table, keys: set<RouterKey>, k: RouterKey)
    requires Consistent(t) && OrderOf(order, t.routers, keys) && k in t.routers && k !in keys
    ensures OrderOf(order + [t.routers[k].chan], t.routers, keys + {k})
  {
    var o := order + [t.routers[k].chan];
    forall i | 0 <= i < |o|
      ensures Serves(o[i], t.routers, keys + {k})
    {
      if i < |order| {
        assert Serves(order[i], t.routers, keys);
        var j :| j in keys && j in t.routers && t.routers[j].chan == order[i];
        assert j in keys + {k};
      } else {
        assert k in keys + {k};
      }
    }
  }

  lemma EmptyOrder(routers: Routers)
    ensures OrderOf([], routers, {})
  {
  }

  lemma NothingToBroadcast(message: ClientMessage)
    ensures Broadcast([], message) == []
  {
  }

  lemma InBroadcast(order: seq<nat>, message: ClientMessage, c: nat)
    ensures ToRouter(c, message) in Broadcast(order, message) <==> c in order
  {
    if c in order {
      var i :| 0 <= i < |order| && order[i] == c;
      assert Broadcast(order, message)[i] == ToRouter(c, message);
    }
  }

  lemma ExtendBroadcast(order: seq<nat>, chan: nat, message: ClientMessage)
    ensures Broadcast(order + [chan], message) == Broadcast(order, message) + [ToRouter(chan, message)]
  {
  }

  /** The channels of any routers of a table can be put in some order. */
  lemma {:induction false} OrderExists(t: Table, keys: set<RouterKey>) returns (order: seq<nat>)
    requires Consistent(t) && keys <= t.routers.Keys
    ensures OrderOf(order, t.routers, keys)
  {
    if keys == {} {
      order := [];
    } else {
      hide Consistent, OrderOf;
      var k :| k in keys;
      order := OrderExists(t, keys - {k});
      ExtendOrder(order, t, keys - {k}, k);
      assert keys - {k} + {k} == keys;
      order := order + [t.routers[k].chan];
    }
  }

  // -------- Whom an uplink is for --------

  /** A router gets the uplink if its own routing matches, or if none does and it is a default router. */
  lemma OrderExact(order: seq<nat>, t: Table, config: Config, packet: Packet, k: RouterKey)
    requires Consistent(t) && OrderOf(order, t.routers, TargetKeys(t.routers, config, packet)) && k in t.routers
    ensures t.routers[k].chan in order <==>
            || t.routers[k].routing.MatchesRoutingInfo(packet.routing, config.lookup)
            || ((forall j | j in t.routers :: !t.routers[j].routing.MatchesRoutingInfo(packet.routing, config.lookup))
                && config.defaultRouters.Some? && k.uri in config.defaultRouters.value)
  {
    var matched, keys := MatchedKeys(t.routers, config, packet), TargetKeys(t.routers, config, packet);
    forall j | j in t.routers
      ensures t.routers[j].routing.MatchesRoutingInfo(packet.routing, config.lookup) <==> j in matched
    {
    }
    assert matched != {} ==> exists j :: j in matched;
    assert t.routers[k].chan in order <==> k in keys by {
      hide MatchedKeys, DefaultKeys, TargetKeys;
      if t.routers[k].chan in order {
        var i :| 0 <= i < |order| && order[i] == t.routers[k].chan;
        assert Serves(order[i], t.routers, keys);
        var j :| j in keys && j in t.routers && t.routers[j].chan == order[i];
      }
    }
  }

  // -------- What a response leaves in the table --------

  /** Item `i` of the response can be decoded and lists the key. */
  ghost predicate ItemLists(routings: seq<Option<Routing>>, i: int, k: RouterKey) {
    0 <= i < |routings| && routings[i].Some? && routings[i].value.oui == k.oui && k.uri in routings[i].value.uris
  }

  /** Item `i` of the response lists the key at a position at which a router starts. */
  ghost predicate ItemStarts(routings: seq<Option<Routing>>, starts: nat -> Starts, i: int, k: RouterKey) {
    && 0 <= i < |routings| && routings[i].Some? && routings[i].value.oui == k.oui
    && exists j :: 0 <= j < |routings[i].value.uris| && routings[i].value.uris[j] == k.uri && starts(i)(j)
  }

  /** Item `i` is the last of the response that lists the key. */
  ghost predicate LastToList(routings: seq<Option<Routing>>, i: int, k: RouterKey) {
    ItemLists(routings, i, k) && forall j | i < j < |routings| :: !ItemLists(routings, j, k)
  }

  ghost predicate NoneLists(routings: seq<Option<Routing>>, k: RouterKey) {
    forall i | 0 <= i < |routings| :: !ItemLists(routings, i, k)
  }

  lemma {:induction false} ApplyAllConsistent(t: Table, updates: seq<Update>)
    requires Consistent(t)
    ensures Consistent(ApplyAll(t, updates))
  {
    if updates == [] {
    } else {
      ApplyAllConsistent(t, updates[..|updates| - 1]);
      RemovalRemovesNothing(ApplyAll(t, updates[..|updates| - 1]), updates[|updates| - 1]);
    }
  }

  /** One more item: it is applied if it can be decoded, and otherwise nothing happens. */
  lemma OneMoreItem(t: Table, routings: seq<Option<Routing>>, starts: nat -> Starts)
    requires routings != []
    ensures var last := |routings| - 1;
            var before := ApplyAll(t, UpdatesOf(routings[..last], starts));
            ApplyAll(t, UpdatesOf(routings, starts)) ==
            if routings[last].Some? then ApplyUpdate(before, Update(routings[last].value, starts(last))) else before
  {
    var last := |routings| - 1;
    var us := UpdatesOf(routings[..last], starts);
    if routings[last].Some? {
      var u := Update(routings[last].value, starts(last));
      assert UpdatesOf(routings, starts) == us + [u];
      assert (us + [u])[..|us|] == us;
    } else {
      assert UpdatesOf(routings, starts) == us + [] == us;
    }
  }

  /** After a response a key is there if it was before, or if some item started its router. */
  lemma {:induction false} ResponseKeys(t: Table, routings: seq<Option<Routing>>, starts: nat -> Starts, k: RouterKey)
    requires Consistent(t)
    ensures k in ApplyAll(t, UpdatesOf(routings, starts)).routers <==>
            k in t.routers || exists i :: ItemStarts(routings, starts, i, k)
    decreases |routings|
  {
    hide Consistent, UpdatesOf, ApplyAll, ApplyUpdate;
    if routings == [] {
      NoItems(t, starts);
    } else {
      var last, front := |routings| - 1, routings[..|routings| - 1];
      ResponseKeys(t, front, starts, k);
      OneMoreItem(t, routings, starts);
      ApplyAllConsistent(t, UpdatesOf(front, starts));
      if routings[last].Some? {
        UpdateAt(ApplyAll(t, UpdatesOf(front, starts)), Update(routings[last].value, starts(last)), k);
        assert StartsFor(Update(routings[last].value, starts(last)), k) == ItemStarts(routings, starts, last, k);
      }
      hide StartsFor;
      StartsSplit(routings, front, starts, k);
    }
  }

  lemma NoItems(t: Table, starts: nat -> Starts)
    ensures ApplyAll(t, UpdatesOf([], starts)) == t
  {
  }

  lemma StartsSplit(routings: seq<Option<Routing>>, front: seq<Option<Routing>>, starts: nat -> Starts, k: RouterKey)
    requires routings != [] && front == routings[..|routings| - 1]
    ensures (exists i :: ItemStarts(routings, starts, i, k)) <==>
            ItemStarts(routings, starts, |routings| - 1, k)
            || exists i :: ItemStarts(front, starts, i, k)
  {
    var last := |routings| - 1;
    forall i: int
      ensures ItemStarts(routings, starts, i, k) <==>
              (i == last && ItemStarts(routings, starts, last, k)) || ItemStarts(front, starts, i, k)
    {
      assert 0 <= i < last ==> routings[i] == front[i];
    }
  }

  lemma ListsSplit(routings: seq<Option<Routing>>, front: seq<Option<Routing>>, k: RouterKey)
    requires routings != [] && front == routings[..|routings| - 1]
    ensures ItemLists(routings, |routings| - 1, k) ==>
            !NoneLists(routings, k) && forall i | LastToList(routings, i, k) :: i == |routings| - 1
    ensures !ItemLists(routings, |routings| - 1, k) ==>
            && NoneLists(routings, k) == NoneLists(front, k)
            && forall i | LastToList(routings, i, k) :: LastToList(front, i, k) && routings[i] == front[i]
  {
    assert forall i | 0 <= i < |front| :: ItemLists(front, i, k) == ItemLists(routings, i, k);
  }

  /** The entry has the routing of the last item that lists its key, or is the old one if none does. */
  ghost predicate FollowsResponse(t: Table, routings: seq<Option<Routing>>, k: RouterKey, now: RouterEntry) {
    && (forall i | LastToList(routings, i, k) :: now.routing == routings[i].value)
    && (NoneLists(routings, k) ==> k in t.routers && now == t.routers[k])
    && (k in t.routers ==> now.chan == t.routers[k].chan)
  }

  lemma FollowsListed(t: Table, routings: seq<Option<Routing>>, k: RouterKey, now: RouterEntry)
    requires routings != [] && ItemLists(routings, |routings| - 1, k)
    requires now.routing == routings[|routings| - 1].value && (k in t.routers ==> now.chan == t.routers[k].chan)
    ensures FollowsResponse(t, routings, k, now)
  {
    ListsSplit(routings, routings[..|routings| - 1], k);
    hide LastToList, NoneLists;
  }

  lemma FollowsUnlisted(t: Table, routings: seq<Option<Routing>>, k: RouterKey, now: RouterEntry)
    requires routings != [] && !ItemLists(routings, |routings| - 1, k)
    requires FollowsResponse(t, routings[..|routings| - 1], k, now)
    ensures FollowsResponse(t, routings, k, now)
  {
    ListsSplit(routings, routings[..|routings| - 1], k);
  }

  lemma {:induction false} ResponseRoutings(t: Table, routings: seq<Option<Routing>>, starts: nat -> Starts,
                                            k: RouterKey)
    requires Consistent(t) && k in ApplyAll(t, UpdatesOf(routings, starts)).routers
    ensures FollowsResponse(t, routings, k, ApplyAll(t, UpdatesOf(routings, starts)).routers[k])
    decreases |routings|
  {
    hide Consistent, UpdatesOf, ApplyAll, ApplyUpdate, StartsFor;
    var now := ApplyAll(t, UpdatesOf(routings, starts)).routers[k];
    if routings == [] {
      NoItems(t, starts);
    } else {
      hide FollowsResponse;
      var last, front := |routings| - 1, routings[..|routings| - 1];
      var before := ApplyAll(t, UpdatesOf(front, starts));
      OneMoreItem(t, routings, starts);
      ApplyAllConsistent(t, UpdatesOf(front, starts));
      if routings[last].Some? {
        UpdateAt(before, Update(routings[last].value, starts(last)), k);
      }
      if k in before.routers {
        ResponseRoutings(t, front, starts, k);
        if ItemLists(routings, last, k) {
          KeptChannel(t, front, k, before.routers[k]);
          FollowsListed(t, routings, k, now);
        } else {
          FollowsUnlisted(t, routings, k, now);
        }
      } else {
        ResponseKeys(t, front, starts, k);
        StartsLists(Update(routings[last].value, starts(last)), k);
        FollowsListed(t, routings, k, now);
      }
    }
  }

  lemma KeptChannel(t: Table, routings: seq<Option<Routing>>, k: RouterKey, now: RouterEntry)
    requires FollowsResponse(t, routings, k, now)
    ensures k in t.routers ==> now.chan == t.routers[k].chan
  {
  }

  lemma StartsLists(u: Update, k: RouterKey)
    requires StartsFor(u, k)
    ensures RoutingTable.Lists(u.routing, k)
  {
  }

  /** All of it, for every key. */
  lemma ResponseExact(t: Table, routings: seq<Option<Routing>>, starts: nat -> Starts)
    requires Consistent(t)
    ensures var now := ApplyAll(t, UpdatesOf(routings, starts)).routers;
            && (forall k :: k in now <==> k in t.routers || exists i :: ItemStarts(routings, starts, i, k))
            && (forall k, i | k in now && LastToList(routings, i, k) :: now[k].routing == routings[i].value)
            && (forall k | k in now && NoneLists(routings, k) :: k in t.routers && now[k] == t.routers[k])
  {
    hide Consistent, NoneLists, ItemStarts, UpdatesOf, ApplyAll;
    var now := ApplyAll(t, UpdatesOf(routings, starts)).routers;
    forall k
      ensures k in now <==> k in t.routers || exists i :: ItemStarts(routings, starts, i, k)
    {
      ResponseKeys(t, routings, starts, k);
    }
    forall k | k in now
      ensures forall i | LastToList(routings, i, k) :: now[k].routing == routings[i].value
      ensures NoneLists(routings, k) ==> k in t.routers && now[k] == t.routers[k]
    {
      ResponseRoutings(t, routings, starts, k);
    }
  }

  // -------- The dispatcher --------

  class Dispatcher {
    var region: Region
    var routingHeight: u64
    var regionHeight: u64
    var gatewayRetry: nat
    var routers: Routers
    var nextChannel: nat
    var outbox: seq<Send>
    const config: Config

    ghost predicate Valid()
      reads this
    {
      Consistent(Table(routers, nextChannel))
    }

    ghost function View(): Core
      reads this
    {
      Core(region, routingHeight, regionHeight, gatewayRetry, Table(routers, nextChannel))
    }

    constructor (region: Region, config: Config)
      ensures Valid() && View() == Core(region, 0, 0, 0, NO_ROUTERS) && outbox == [] && this.config == config
    {
      this.region, this.config := region, config;
      routingHeight, regionHeight, gatewayRetry := 0, 0, 0;
      routers, nextChannel, outbox := map[], 0, [];
    }

    /** Sends one message to each of the given routers, in whatever order the table is iterated. */
    method SendToAll(keys: set<RouterKey>, message: ClientMessage) returns (ghost order: seq<nat>)
      requires Valid() && keys <= routers.Keys
      modifies this`outbox
      ensures OrderOf(order, routers, keys)
      ensures outbox == old(outbox) + Broadcast(order, message)
    {
      hide OrderOf, Broadcast, Consistent;
      order := [];
      EmptyOrder(routers);
      assert outbox == outbox + Broadcast([], message) by {
        NothingToBroadcast(message);
      }
      ghost var done: set<RouterKey> := {};
      var todo := keys;
      while todo != {}
        invariant done + todo == keys && done !! todo
        invariant OrderOf(order, routers, done)
        invariant outbox == old(outbox) + Broadcast(order, message)
      {
        var k :| k in todo;
        ExtendOrder(order, Table(routers, nextChannel), done, k);
        ExtendBroadcast(order, routers[k].chan, message);
        outbox := outbox + [ToRouter(routers[k].chan, message)];
        order := order + [routers[k].chan];
        done := done + {k};
        todo := todo - {k};
      }
    }

    /** Each matching router gets the packet once; if none matches, each default router does. */
    method HandleUplink(packet: Packet, received: nat) returns (ghost order: seq<nat>)
      requires Valid()
      modifies this`outbox
      ensures OrderOf(order, routers, TargetKeys(routers, config, packet))
      ensures outbox == old(outbox) + Broadcast(order, Uplink(packet, received))
      ensures forall k | k in routers ::
                ToRouter(routers[k].chan, Uplink(packet, received)) in outbox[|old(outbox)|..] <==>
                || routers[k].routing.MatchesRoutingInfo(packet.routing, config.lookup)
                || ((forall j | j in routers :: !routers[j].routing.MatchesRoutingInfo(packet.routing, config.lookup))
                    && config.defaultRouters.Some? && k.uri in config.defaultRouters.value)
    {
      var matched := MatchedKeys(routers, config, packet);
      if matched != {} {
        order := SendToAll(matched, Uplink(packet, received));
      } else {
        order := SendToAll(DefaultKeys(routers, config), Uplink(packet, received));
      }
      forall k | k in routers
        ensures ToRouter(routers[k].chan, Uplink(packet, received)) in outbox[|old(outbox)|..]
                <==> routers[k].chan in order
      {
        InBroadcast(order, Uplink(packet, received), routers[k].chan);
      }
      hide OrderOf, Broadcast, TargetKeys, Consistent;
      forall k | k in routers {
        OrderExact(order, Table(routers, nextChannel), config, packet, k);
      }
    }

    /** An accepted update goes to the gateway first and then to every router; any other changes nothing. */
    method HandleRegionParamsUpdate(r: RegionResponse) returns (ghost order: seq<nat>)
      requires Valid()
      modifies this
      ensures Valid() && View() == OnRegion(old(View()), r)
      ensures RegionAccepted(old(View()), r) ==>
              && OrderOf(order, routers, routers.Keys)
              && outbox == old(outbox) + [ToGateway(r.params.value)] + Broadcast(order, RegionChanged(region))
      ensures !RegionAccepted(old(View()), r) ==> outbox == old(outbox)
      ensures routers == old(routers) && routingHeight == old(routingHeight) && gatewayRetry == old(gatewayRetry)
      ensures if r.height > old(regionHeight) && r.params.Some?
              then regionHeight == r.height && region == r.params.value.region && |outbox| > |old(outbox)|
              else regionHeight == old(regionHeight) && region == old(region) && outbox == old(outbox)
    {
      order := [];
      if r.height <= regionHeight {
        return;
      }
      if r.params.Some? {
        regionHeight := r.height;
        region := r.params.value.region;
        outbox := outbox + [ToGateway(r.params.value)];
        order := SendToAll(routers.Keys, RegionChanged(region));
      }
    }

    method StartOrUpdate(routing: Routing, uri: KeyedUri, starts: bool)
      modifies this`routers, this`nextChannel
      ensures Table(routers, nextChannel) == PutUri(old(Table(routers, nextChannel)), routing, uri, starts)
    {
      var key := RouterKey(routing.oui, uri);
      if key in routers {
        routers := routers[key := routers[key].(routing := routing)];
      } else if starts {
        routers := routers[key := RouterEntry(routing, nextChannel)];
        nextChannel := nextChannel + 1;
      }
    }

    /** The update of one OUI; the removal at its end finds nothing to remove, so no stop is ever sent. */
    method HandleOuiRoutingUpdate(routing: Routing, starts: Starts)
      requires Valid()
      modifies this`routers, this`nextChannel, this`outbox
      ensures Valid()
      ensures View().table == ApplyUpdate(old(View()).table, Update(routing, starts))
      ensures outbox == old(outbox)
    {
      ghost var u := Update(routing, starts);
      ghost var t0 := Table(routers, nextChannel);
      var i := 0;
      while i < |routing.uris|
        invariant 0 <= i <= |routing.uris|
        invariant PutUris(Table(routers, nextChannel), u, i) == PutUris(t0, u, 0)
        invariant outbox == old(outbox)
      {
        StartOrUpdate(routing, routing.uris[i], starts(i));
        i := i + 1;
      }
      var removables := StoppedChannels(routers, routing);
      ghost var stopped := removables;
      routers := RemovalPass(routers, routing);
      ghost var t1 := Table(routers, nextChannel);
      while removables != {}
        invariant removables <= stopped && Table(routers, nextChannel) == t1
        invariant stopped == {} ==> outbox == old(outbox)
      {
        var chan :| chan in removables;
        outbox := outbox + [ToRouter(chan, Stop)];
        removables := removables - {chan};
      }
      RemovalRemovesNothing(t0, u);
    }

    method HandleRoutingUpdate(r: RoutingResponse, starts: nat -> Starts)
      requires Valid()
      modifies this`routers, this`nextChannel, this`outbox, this`routingHeight
      ensures Valid() && View() == OnRouting(old(View()), r, starts)
      ensures outbox == old(outbox)
      ensures !(r.height > old(routingHeight) && r.routings.Some?) ==>
              routers == old(routers) && routingHeight == old(routingHeight)
      ensures r.height > old(routingHeight) && r.routings.Some? ==>
              && routingHeight == r.height
              && (forall k ::
                    k in routers <==> k in old(routers) || exists i :: ItemStarts(r.routings.value, starts, i, k))
              && (forall k, i | k in routers && LastToList(r.routings.value, i, k) ::
                    routers[k].routing == r.routings.value[i].value)
              && (forall k | k in routers && NoneLists(r.routings.value, k) ::
                    k in old(routers) && routers[k] == old(routers)[k])
    {
      if r.height <= routingHeight {
        return;
      }
      if r.routings.None? {
        return;
      }
      var routings := r.routings.value;
      ghost var t0 := Table(routers, nextChannel);
      assert routings[..0] == [];
      for i := 0 to |routings|
        invariant Valid() && outbox == old(outbox)
        invariant Table(routers, nextChannel) == ApplyAll(t0, UpdatesOf(routings[..i], starts))
      {
        ghost var before := UpdatesOf(routings[..i], starts);
        assert routings[..i + 1][..i] == routings[..i];
        if routings[i].Some? {
          HandleOuiRoutingUpdate(routings[i].value, starts(i));
          ghost var u := Update(routings[i].value, starts(i));
          assert (before + [u])[..|before|] == before;
          assert UpdatesOf(routings[..i + 1], starts) == before + [u];
        } else {
          assert UpdatesOf(routings[..i + 1], starts) == before + [] == before;
        }
      }
      assert routings[..|routings|] == routings;
      routingHeight := r.height;
      ResponseExact(t0, routings, starts);
      hide LastToList, NoneLists, ItemStarts, UpdatesOf, ApplyAll;
    }

    /** An uplink is sent on; a query is answered and changes nothing. */
    method HandleMessage(message: DispatcherMessage) returns (ghost order: seq<nat>)
      requires Valid()
      modifies this`outbox
      ensures message.QueryMessage? ==> outbox == old(outbox)
      ensures message.UplinkMessage? ==>
              && OrderOf(order, routers, TargetKeys(routers, config, message.packet))
              && outbox == old(outbox) + Broadcast(order, Uplink(message.packet, message.received))
    {
      order := [];
      if message.UplinkMessage? {
        order := HandleUplink(message.packet, message.received);
      }
    }

    /** Resets the heights, counts the retry, and pauses until the time is over or one message has been handled. */
    method PrepareGatewayChange(message: Option<DispatcherMessage>) returns (ghost order: seq<nat>)
      requires Valid()
      modifies this`routingHeight, this`regionHeight, this`gatewayRetry, this`outbox
      ensures Valid() && View() == OnGatewayChange(old(View()))
      ensures message.None? || message.value.QueryMessage? ==> outbox == old(outbox)
      ensures message.Some? && message.value.UplinkMessage? ==>
              && OrderOf(order, routers, TargetKeys(routers, config, message.value.packet))
              && outbox == old(outbox) + Broadcast(order, Uplink(message.value.packet, message.value.received))
    {
      routingHeight := 0;
      regionHeight := 0;
      gatewayRetry := gatewayRetry + 1;
      order := [];
      if message.Some? {
        order := HandleMessage(message.value);
      }
    }
  }
}
