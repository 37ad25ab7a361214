/** The dispatcher's table of routers, and what a history of routing updates makes of it. */
module RoutingTable {
  import opened Bits
  import opened Routing

  datatype RouterKey = RouterKey(oui: u32, uri: KeyedUri)

  /** A router's current routing and the channel of the client that serves it. */
  datatype RouterEntry = RouterEntry(routing: Routing, chan: nat)

  type Routers = map<RouterKey, RouterEntry>

  /** The table and the number of the next channel to create. */
  datatype Table = Table(routers: Routers, next: nat)

  /** Whether starting a router succeeds, for each position of the update's address list. */
  type Starts = nat -> bool

  /** One applied update: a routing, and how its router starts went. */
  datatype Update = Update(routing: Routing, starts: Starts)

  type History = seq<Update>

  const NO_ROUTERS := Table(map[], 0)

  // -------- The update as coded --------

  /** One address of an update: an existing router takes the routing over, a missing one is started. */
  function PutUri(t: Table, routing: Routing, uri: KeyedUri, starts: bool): Table {
    var key := RouterKey(routing.oui, uri);
    if key in t.routers then t.(routers := t.routers[key := t.routers[key].(routing := routing)])
    else if starts then Table(t.routers[key := RouterEntry(routing, t.next)], t.next + 1)
    else t
  }

  /** The addresses from position `i` on, in order. */
  function PutUris(t: Table, u: Update, i: nat): Table
    requires i <= |u.routing.uris|
    decreases |u.routing.uris| - i
  {
    if i == |u.routing.uris| then t
    else PutUris(PutUri(t, u.routing, u.routing.uris[i], u.starts(i)), u, i + 1)
  }

  /** The removal guard as coded: an entry of the same OUI goes if its *own* routing does not list its address. */
  predicate Removable(key: RouterKey, entry: RouterEntry, routing: Routing) {
    key.oui == routing.oui && !entry.routing.ContainsUri(key.uri)
  }

  function RemovalPass(routers: Routers, routing: Routing): Routers {
    map key | key in routers && !Removable(key, routers[key], routing) :: routers[key]
  }

  /** The channels that the removal pass sends a stop to. */
  function StoppedChannels(routers: Routers, routing: Routing): set<nat> {
    set key | key in routers && Removable(key, routers[key], routing) :: routers[key].chan
  }

  function ApplyUpdate(t: Table, u: Update): Table {
    var put := PutUris(t, u, 0);
    put.(routers := RemovalPass(put.routers, u.routing))
  }

  function TableAfter(h: History): Table {
    if h == [] then NO_ROUTERS else ApplyUpdate(TableAfter(h[..|h| - 1]), h[|h| - 1])
  }

  // -------- The history, without a table --------

  ghost predicate Lists(routing: Routing, key: RouterKey) {
    routing.oui == key.oui && key.uri in routing.uris
  }

  /** The update starts a router for this address if there is none. */
  ghost predicate StartsFor(u: Update, key: RouterKey) {
    u.routing.oui == key.oui && exists i | 0 <= i < |u.routing.uris| :: u.routing.uris[i] == key.uri && u.starts(i)
  }

  /** Some update of the history started a router for this address. */
  ghost predicate Started(h: History, key: RouterKey) {
    exists i | 0 <= i < |h| :: StartsFor(h[i], key)
  }

  /** The last routing of the history that lists the key. */
  ghost function LastListing(h: History, key: RouterKey): Routing
    requires exists i | 0 <= i < |h| :: Lists(h[i].routing, key)
  {
    var last := h[|h| - 1].routing;
    if Lists(last, key) then last else LastListing(h[..|h| - 1], key)
  }

  // -------- What every update keeps --------

  /** Each entry's routing is of the key's OUI and lists the key's address; channels are in use once. */
  ghost predicate Consistent(t: Table) {
    && (forall k | k in t.routers :: Lists(t.routers[k].routing, k) && t.routers[k].chan < t.next)
    && (forall j, k | j in t.routers && k in t.routers && j != k :: t.routers[j].chan != t.routers[k].chan)
  }

  lemma {:induction false} PutUrisConsistent(t: Table, u: Update, i: nat)
    requires Consistent(t) && i <= |u.routing.uris|
    ensures Consistent(PutUris(t, u, i)) && PutUris(t, u, i).next >= t.next
    decreases |u.routing.uris| - i
  {
    if i == |u.routing.uris| {
    } else {
      PutUriConsistent(t, u.routing, u.routing.uris[i], u.starts(i));
      PutUrisConsistent(PutUri(t, u.routing, u.routing.uris[i], u.starts(i)), u, i + 1);
    }
  }

  lemma PutUriConsistent(t: Table, routing: Routing, uri: KeyedUri, starts: bool)
    requires Consistent(t) && uri in routing.uris
    ensures Consistent(PutUri(t, routing, uri, starts)) && PutUri(t, routing, uri, starts).next >= t.next
  {
  }

  /** What an update's address list does to one key. */
  lemma {:induction false} PutUrisAt(t: Table, u: Update, i: nat, k: RouterKey)
    requires i <= |u.routing.uris|
    ensures var rest, r := u.routing.uris[i..], PutUris(t, u, i).routers;
            && (k.oui != u.routing.oui || k.uri !in rest ==>
                  (k in r <==> k in t.routers) && (k in r ==> r[k] == t.routers[k]))
            && (k.oui == u.routing.oui && k.uri in rest && k in t.routers ==>
                  k in r && r[k] == t.routers[k].(routing := u.routing))
            && (k.oui == u.routing.oui && k.uri in rest && k !in t.routers && k in r ==> r[k].routing == u.routing)
    decreases |u.routing.uris| - i
  {
    if i == |u.routing.uris| {
    } else {
      var uri := u.routing.uris[i];
      assert u.routing.uris[i..] == [uri] + u.routing.uris[i + 1..];
      PutUrisAt(PutUri(t, u.routing, uri, u.starts(i)), u, i + 1, k);
    }
  }

  /** A key that was absent is present afterwards exactly when one of its starts succeeds. */
  lemma {:induction false} PutUrisStarts(t: Table, u: Update, i: nat, k: RouterKey)
    requires i <= |u.routing.uris|
    ensures k in PutUris(t, u, i).routers <==>
            k in t.routers
            || (k.oui == u.routing.oui
                && exists j | i <= j < |u.routing.uris| :: u.routing.uris[j] == k.uri && u.starts(j))
    decreases |u.routing.uris| - i
  {
    if i == |u.routing.uris| {
    } else {
      PutUrisStarts(PutUri(t, u.routing, u.routing.uris[i], u.starts(i)), u, i + 1, k);
    }
  }

  /** The removal pass as coded never removes a router and never sends a stop. */
  lemma RemovalRemovesNothing(t: Table, u: Update)
    requires Consistent(t)
    ensures ApplyUpdate(t, u) == PutUris(t, u, 0)
    ensures StoppedChannels(PutUris(t, u, 0).routers, u.routing) == {}
    ensures Consistent(ApplyUpdate(t, u))
  {
    PutUrisConsistent(t, u, 0);
    var r := PutUris(t, u, 0).routers;
    assert RemovalPass(r, u.routing) == r;
  }

  /** Each update keeps every key and its channel, and does not touch the routers of another OUI. */
  lemma UpdateAt(t: Table, u: Update, k: RouterKey)
    requires Consistent(t)
    ensures var r := ApplyUpdate(t, u).routers;
            && (k in t.routers ==>
                  && k in r && r[k].chan == t.routers[k].chan
                  && r[k].routing == if Lists(u.routing, k) then u.routing else t.routers[k].routing)
            && (k !in t.routers ==> (k in r <==> StartsFor(u, k)) && (k in r ==> r[k].routing == u.routing))
            && (k.oui != u.routing.oui ==> (k in r <==> k in t.routers) && (k in r ==> r[k] == t.routers[k]))
  {
    RemovalRemovesNothing(t, u);
    PutUrisAt(t, u, 0, k);
    PutUrisStarts(t, u, 0, k);
    assert u.routing.uris[0..] == u.routing.uris;
  }

  lemma {:induction false} TableConsistent(h: History)
    ensures Consistent(TableAfter(h))
  {
    if h == [] {
    } else {
      TableConsistent(h[..|h| - 1]);
      RemovalRemovesNothing(TableAfter(h[..|h| - 1]), h[|h| - 1]);
    }
  }

  // -------- The table refines the history --------

  /**
    In every reachable table a key is present exactly when some update started its router, and its routing is
    the last one of that OUI that listed its address.
   */
  lemma {:induction false} TableRefinesHistory(h: History, k: RouterKey)
    ensures k in TableAfter(h).routers <==> Started(h, k)
    ensures k in TableAfter(h).routers ==>
            && (exists i | 0 <= i < |h| :: Lists(h[i].routing, k))
            && TableAfter(h).routers[k].routing == LastListing(h, k)
  {
    if h == [] {
    } else {
      var front, u := h[..|h| - 1], h[|h| - 1];
      TableRefinesHistory(front, k);
      TableConsistent(front);
      UpdateAt(TableAfter(front), u, k);
      assert Started(h, k) <==> Started(front, k) || StartsFor(u, k) by {
        StartedStep(front, u, k);
        assert h == front + [u];
      }
      if k in TableAfter(h).routers {
        if k in TableAfter(front).routers {
          var i :| 0 <= i < |front| && Lists(front[i].routing, k);
          assert Lists(h[i].routing, k);
        } else {
          assert Lists(h[|h| - 1].routing, k);
        }
      }
    }
  }

  lemma StartedStep(front: History, u: Update, k: RouterKey)
    ensures Started(front + [u], k) <==> Started(front, k) || StartsFor(u, k)
  {
    var h := front + [u];
    if Started(front, k) {
      var i :| 0 <= i < |front| && StartsFor(front[i], k);
      assert StartsFor(h[i], k);
    }
    if StartsFor(u, k) {
      assert StartsFor(h[|front|], k);
    }
  }

  /** The channel of a key is the one created when the key first appeared, however the history goes on. */
  lemma {:induction false} ChannelsAreForever(h: History, more: History, k: RouterKey)
    requires k in TableAfter(h).routers
    ensures k in TableAfter(h + more).routers
    ensures TableAfter(h + more).routers[k].chan == TableAfter(h).routers[k].chan
    decreases |more|
  {
    if more == [] {
      assert h + more == h;
    } else {
      var front, u := more[..|more| - 1], more[|more| - 1];
      ChannelsAreForever(h, front, k);
      TableConsistent(h + front);
      UpdateAt(TableAfter(h + front), u, k);
      assert (h + more)[..|h + more| - 1] == h + front;
    }
  }

  // -------- The removal that the comment describes --------

  /** The removal guard as described: an entry of the same OUI goes if the *new* routing does not list its address. */
  function DescribedRemoval(routers: Routers, routing: Routing): Routers {
    map key | key in routers && !(key.oui == routing.oui && !routing.ContainsUri(key.uri)) :: routers[key]
  }

  /** With the described guard the OUI's routers are exactly the listed addresses that run. */
  lemma DescribedRemovalExact(t: Table, u: Update, k: RouterKey)
    requires Consistent(t) && k.oui == u.routing.oui
    ensures k in DescribedRemoval(PutUris(t, u, 0).routers, u.routing) <==>
            k.uri in u.routing.uris && (k in t.routers || StartsFor(u, k))
  {
    PutUrisStarts(t, u, 0, k);
  }

  /** The code does what its comment says exactly when the new routing still lists every router of its OUI. */
  lemma RemovalAsDescribed(t: Table, u: Update)
    requires Consistent(t)
    ensures ApplyUpdate(t, u).routers == DescribedRemoval(PutUris(t, u, 0).routers, u.routing) <==>
            forall k | k in t.routers && k.oui == u.routing.oui :: k.uri in u.routing.uris
  {
    RemovalRemovesNothing(t, u);
    var r := PutUris(t, u, 0).routers;
    forall k | k in r && k.oui == u.routing.oui && k.uri !in u.routing.uris
      ensures k in t.routers
    {
      PutUrisStarts(t, u, 0, k);
    }
    forall k | k in t.routers
      ensures k in r
    {
      PutUrisStarts(t, u, 0, k);
    }
    if forall k | k in t.routers && k.oui == u.routing.oui :: k.uri in u.routing.uris {
      assert DescribedRemoval(r, u.routing) == r;
    } else {
      var k :| k in t.routers && k.oui == u.routing.oui && k.uri !in u.routing.uris;
      assert k in r && k !in DescribedRemoval(r, u.routing);
    }
  }

  /** A router that its OUI no longer lists stays in the table with its old routing. */
  lemma DelistedRouterStays(oui: u32, a: KeyedUri, b: KeyedUri)
    requires a != b
    ensures var first := Update(Routing(oui, [a], [], []), _ => true);
            var second := Update(Routing(oui, [b], [], []), _ => true);
            var t := TableAfter([first, second]);
            RouterKey(oui, a) in t.routers && t.routers[RouterKey(oui, a)].routing == first.routing
  {
    var first := Update(Routing(oui, [a], [], []), _ => true);
    var second := Update(Routing(oui, [b], [], []), _ => true);
    var h, k := [first, second], RouterKey(oui, a);
    assert StartsFor(first, k) by {
      assert first.routing.uris[0] == a;
    }
    assert StartsFor(h[0], k);
    TableRefinesHistory(h, k);
    assert Lists(first.routing, k) && !Lists(second.routing, k);
    assert h[..1] == [first];
  }

  /** The pass as coded, for any table: what stays is what is of another OUI or listed by its own routing. */
  lemma RemovalExact(routers: Routers, routing: Routing, k: RouterKey)
    ensures k in RemovalPass(routers, routing) <==>
            k in routers && (k.oui != routing.oui || k.uri in routers[k].routing.uris)
    ensures k in RemovalPass(routers, routing) ==> RemovalPass(routers, routing)[k] == routers[k]
    ensures k in routers && k !in RemovalPass(routers, routing) ==>
            routers[k].chan in StoppedChannels(routers, routing)
  {
  }
}
