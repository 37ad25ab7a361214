/** Packets received over the air: how they are classified for the routers and for the beaconer. */
module Packet {
  import opened Bits
  import opened Wrappers
  import opened Bytes
  import opened Frame
  import opened Filter
  import opened Routing

  datatype DataRate = Sf7bw125 | Sf8bw125 | Sf9bw125 | Sf10bw125 | Sf11bw125 | Sf12bw125 | OtherRate

  /** What the radio reports: a checksum verdict, a payload, and the data rate if its name is known. */
  datatype RxPk = RxPk(crcOk: bool, data: bytes, datarate: Option<DataRate>)

  datatype Packet = Packet(routing: Option<RoutingInformation>, payload: bytes, datarate: Option<DataRate>)

  datatype PacketError = InvalidCrc | LoraWan(error: LoraWanError) | NotABeacon | InvalidDatarate

  function ParseFrame(direction: Direction, payload: bytes): Result<PhyPayloadFrame, PacketError> {
    match ReadSpec(direction, payload)
    case Ok(p) => Ok(p.payload)
    case Err(e) => Err(LoraWan(e))
  }

  function RoutingInformationOf(frame: PhyPayloadFrame): Option<RoutingInformation> {
    match frame
    case JoinRequestFrame(r) => Some(RoutingInformation(Some(EuiData(Eui(r.devEui, r.appEui)))))
    case MacFrame(mac) => Some(RoutingInformation(Some(DevaddrData(mac.fhdr.devAddr))))
    case _ => None
  }

  function FromRxPk(rxpk: RxPk): Result<Packet, PacketError> {
    if rxpk.crcOk then
      var frame :- ParseFrame(Uplink, rxpk.data);
      Ok(Packet(RoutingInformationOf(frame), rxpk.data, rxpk.datarate))
    else
      Err(InvalidCrc)
  }

  /** Looks at the header byte only. */
  predicate IsPotentialBeacon(packet: Packet) {
    packet.payload != [] && Mhdr(packet.payload[0]).MType().Proprietary?
  }

  predicate WitnessRate(rate: Option<DataRate>) {
    rate in {Some(Sf7bw125), Some(Sf8bw125), Some(Sf9bw125), Some(Sf10bw125), Some(Sf12bw125)}
  }

  /** The payload that a witness report carries. */
  function ToWitnessReport(packet: Packet): Result<bytes, PacketError> {
    match ParseFrame(Uplink, packet.payload)
    case Ok(ProprietaryFrame(data)) => if WitnessRate(packet.datarate) then Ok(data) else Err(InvalidDatarate)
    case _ => Err(NotABeacon)
  }

  // -------- Uplinks and routers --------

  /** Whether the packed subnet string selects this address: 23 bits compared against a 48-bit range code. */
  ghost predicate SubnetSelects(subnet: bytes, devaddr: u32) {
    |subnet| == 6 &&
    var lo := FromBE(subnet) / TWO_23;
    lo <= devaddr % TWO_23 < lo + TWO_25 - 4 * (FromBE(subnet) % TWO_23)
  }

  /** The routing's subnet filters are the decoded forms of these packed strings. */
  ghost predicate DecodedFrom(routing: Routing, subnets: seq<bytes>) {
    && |routing.subnets| == |subnets|
    && forall i | 0 <= i < |subnets| ::
         |subnets[i]| == 6 && routing.subnets[i] == DevAddrFilterFromBin(subnets[i])
  }

  /**
    From bytes on the air to a routing decision: a data frame goes to a routing exactly when one of its packed
    subnets selects the little-endian address in bytes 1 to 4 of the frame.
   */
  lemma DataUplinkMatches(rxpk: RxPk, routing: Routing, subnets: seq<bytes>, lookup: EuiLookup)
    requires FromRxPk(rxpk).Ok? && IsData(TypeOf(rxpk.data)) && DecodedFrom(routing, subnets)
    ensures routing.MatchesRoutingInfo(FromRxPk(rxpk).value.routing, lookup) <==>
            exists i | 0 <= i < |subnets| :: SubnetSelects(subnets[i], LE32(rxpk.data[1..5]))
  {
    hide DevAddrFilterFromBin, FromBE, FromLE, And;
    var devaddr := LE32(rxpk.data[1..5]);
    assert FromRxPk(rxpk).value.routing == Some(RoutingInformation(Some(DevaddrData(devaddr))));
    forall i | 0 <= i < |subnets|
      ensures routing.subnets[i].Contains(devaddr) <==> SubnetSelects(subnets[i], devaddr)
    {
      FilterMembership(subnets[i], devaddr);
    }
  }

  /** A join request goes to a routing exactly when a filter reports its two EUIs, device EUI first. */
  lemma JoinUplinkMatches(rxpk: RxPk, routing: Routing, lookup: EuiLookup)
    requires FromRxPk(rxpk).Ok? && TypeOf(rxpk.data).JoinRequest?
    ensures routing.MatchesRoutingInfo(FromRxPk(rxpk).value.routing, lookup) <==>
            exists i | 0 <= i < |routing.filters| ::
              lookup(routing.filters[i], rxpk.data[9..17] + rxpk.data[1..9])
  {
    hide ToLE, FromLE;
    ToLEFromLE(rxpk.data[9..17]);
    ToLEFromLE(rxpk.data[1..9]);
  }

  /** Join accepts and proprietary frames carry no routing information, so no routing matches them. */
  lemma OthersMatchNothing(rxpk: RxPk, routing: Routing, lookup: EuiLookup)
    requires FromRxPk(rxpk).Ok? && !IsData(TypeOf(rxpk.data)) && !TypeOf(rxpk.data).JoinRequest?
    ensures !routing.MatchesRoutingInfo(FromRxPk(rxpk).value.routing, lookup)
  {
  }

  // -------- Beacons --------

  /**
    For every packet that is accepted from the radio the header-only test agrees with the full parse, so a
    packet handed to the beaconer is never refused as "not a beacon", and any other packet would be.
   */
  lemma BeaconTestAgrees(rxpk: RxPk)
    requires FromRxPk(rxpk).Ok?
    ensures IsPotentialBeacon(FromRxPk(rxpk).value) <==> ToWitnessReport(FromRxPk(rxpk).value) != Err(NotABeacon)
    ensures IsPotentialBeacon(FromRxPk(rxpk).value) && WitnessRate(rxpk.datarate)
            ==> ToWitnessReport(FromRxPk(rxpk).value) == Ok(rxpk.data[1..])
  {
  }

  /** The bytes and the size field of the transmission that carries a beacon. */
  function BeaconToPullResp(beacon: bytes): (bytes, nat) {
    (Emit(ProprietaryPayload(beacon)), |beacon|)
  }

  /**
    A transmitted beacon is accepted by a receiving gateway, and witnessed with its own payload, exactly when
    it has at least 11 bytes; the size field is one short of the bytes in every case.
   */
  lemma BeaconHeard(beacon: bytes, rate: Option<DataRate>)
    ensures var (data, size) := BeaconToPullResp(beacon);
            && size + 1 == |data|
            && (FromRxPk(RxPk(true, data, rate)).Ok? <==> |beacon| >= 11)
            && (|beacon| >= 11 && WitnessRate(rate)
                ==> ToWitnessReport(FromRxPk(RxPk(true, data, rate)).value) == Ok(beacon))
  {
    hide Emit, ReadSpec;
    ProprietaryReadBack(Uplink, beacon);
    EmitProprietary(beacon);
  }

  lemma EmitProprietary(beacon: bytes)
    ensures Emit(ProprietaryPayload(beacon)) == [224] + beacon
  {
  }

  /** No version-0 beacon, at 5 to 10 bytes, is ever heard: every receiver refuses it for its size. */
  lemma VersionZeroNeverHeard(beacon: bytes, rate: Option<DataRate>)
    requires MIN_BEACON_V0_PAYLOAD_SIZE <= |beacon| <= MAX_BEACON_V0_PAYLOAD_SIZE
    ensures FromRxPk(RxPk(true, BeaconToPullResp(beacon).0, rate))
            == Err(LoraWan(InvalidPacketSize(Proprietary, |beacon| + 1)))
  {
    hide Emit, ReadSpec;
    ProprietaryReadBack(Uplink, beacon);
  }

  // -------- From the received bytes --------

  /** A packet whose checksum failed is refused; any other is accepted exactly when it is a frame. */
  lemma ChecksumDecides(rxpk: RxPk)
    ensures !rxpk.crcOk ==> FromRxPk(rxpk) == Err(InvalidCrc)
    ensures rxpk.crcOk ==>
            match ReadSpec(Uplink, rxpk.data)
            case Ok(_) =>
              FromRxPk(rxpk).Ok? && FromRxPk(rxpk).value.payload == rxpk.data
              && FromRxPk(rxpk).value.datarate == rxpk.datarate
            case Err(e) => FromRxPk(rxpk) == Err(LoraWan(e))
  {
    hide ReadSpec;
  }

  /** The beacon test and the witness report, from the bytes and the data rate of any packet. */
  lemma WitnessByBytes(packet: Packet)
    ensures IsPotentialBeacon(packet) <==> packet.payload != [] && packet.payload[0] >= 224
    ensures ToWitnessReport(packet) ==
            if |packet.payload| < 12 || packet.payload[0] < 224 then Err(NotABeacon)
            else match packet.datarate
              case Some(Sf7bw125) => Ok(packet.payload[1..])
              case Some(Sf8bw125) => Ok(packet.payload[1..])
              case Some(Sf9bw125) => Ok(packet.payload[1..])
              case Some(Sf10bw125) => Ok(packet.payload[1..])
              case Some(Sf12bw125) => Ok(packet.payload[1..])
              case _ => Err(InvalidDatarate)
  {
    var b := packet.payload;
    ReadByHeader(Uplink, b);
    if b != [] && 64 <= b[0] < 192 {
      ReadDataByHeader(Uplink, b);
    }
    hide ReadSpec, FromLE;
  }
}
