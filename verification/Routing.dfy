/** Routing entries of the network, and which packets they match. */
module Routing {
  import opened Bits
  import opened Wrappers
  import opened Bytes
  import opened Filter

  /** A router's address: a URI with the key of its owner. */
  datatype KeyedUri = KeyedUri(uri: string, pubkey: bytes)

  datatype RoutingData = EuiData(eui: Eui) | DevaddrData(devaddr: u32)

  datatype RoutingInformation = RoutingInformation(data: Option<RoutingData>)

  /** The library's filter lookup: whether a filter reports the hash of these sixteen bytes as a member. */
  type EuiLookup = (EuiFilter, bytes) -> bool

  datatype Routing = Routing(oui: u32, uris: seq<KeyedUri>, filters: seq<EuiFilter>, subnets: seq<DevAddrFilter>) {
    predicate ContainsUri(uri: KeyedUri) {
      uri in uris
    }

    predicate MatchesRoutingInfo(info: Option<RoutingInformation>, lookup: EuiLookup) {
      match info
      case Some(RoutingInformation(data)) => MatchesRoutingData(data, lookup)
      case None => false
    }

    predicate MatchesRoutingData(data: Option<RoutingData>, lookup: EuiLookup) {
      match data
      case None => false
      case Some(EuiData(eui)) => exists i | 0 <= i < |filters| :: lookup(filters[i], eui.Key())
      case Some(DevaddrData(devaddr)) => exists i | 0 <= i < |subnets| :: subnets[i].Contains(devaddr)
    }
  }
}
