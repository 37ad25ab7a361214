/** LoRaWAN physical frames: the reader, the writer, and what each does to the bytes. */
module Frame {
  import opened Bits
  import opened Wrappers
  import opened Bytes

  datatype Direction = Uplink | Downlink

  datatype MType =
    | JoinRequest
    | JoinAccept
    | UnconfirmedUp
    | UnconfirmedDown
    | ConfirmedUp
    | ConfirmedDown
    | Proprietary
    | Invalid(v: u8)

  datatype LoraWanError =
    | InvalidPacketType(v: u8)
    | InvalidFPortForFopts
    | InvalidPacketSize(mtype: MType, size: nat)
    | Io(error: IoError)

  function MTypeFromBits(v: u8): MType {
    match v
    case 0 => JoinRequest
    case 1 => JoinAccept
    case 2 => UnconfirmedUp
    case 3 => UnconfirmedDown
    case 4 => ConfirmedUp
    case 5 => ConfirmedDown
    case 7 => Proprietary
    case _ => Invalid(v)
  }

  function MTypeToBits(m: MType): u8 {
    match m
    case JoinRequest => 0
    case JoinAccept => 1
    case UnconfirmedUp => 2
    case UnconfirmedDown => 3
    case ConfirmedUp => 4
    case ConfirmedDown => 5
    case Proprietary => 7
    case Invalid(v) => v
  }

  /** The message type occupies the top three bits of the header byte. */
  datatype Mhdr = Mhdr(bits: u8) {
    function MType(): MType {
      MTypeFromBits(bits / 32)
    }

    function SetMType(m: MType): Mhdr {
      Mhdr(MTypeToBits(m) % 8 * 32 + bits % 32)
    }
  }

  datatype FCtrl = UplinkCtrl(bits: u8) | DownlinkCtrl(bits: u8) {
    function FoptsLen(): nat {
      bits % 16
    }
  }

  datatype Fhdr = Fhdr(devAddr: u32, fctrl: FCtrl, fcnt: u16, fopts: bytes)

  datatype FrmPayload =
    | UnconfirmedUpData(data: bytes)
    | UnconfirmedDownData(data: bytes)
    | ConfirmedUpData(data: bytes)
    | ConfirmedDownData(data: bytes)

  datatype MacPayload = MacPayload(fhdr: Fhdr, fport: Option<u8>, payload: Option<FrmPayload>)

  datatype JoinRequestBody = JoinRequestBody(appEui: u64, devEui: u64, devNonce: bytes)

  datatype JoinAcceptBody =
    JoinAcceptBody(appNonce: bytes, netId: bytes, devAddr: u32, dlSettings: u8, rxDelay: u8)

  datatype PhyPayloadFrame =
    | MacFrame(mac: MacPayload)
    | JoinRequestFrame(request: JoinRequestBody)
    | JoinAcceptFrame(accept: JoinAcceptBody)
    | ProprietaryFrame(data: bytes)

  datatype PhyPayload = PhyPayload(mhdr: Mhdr, payload: PhyPayloadFrame, mic: Option<bytes>)

  const JOIN_REQUEST_LEN := 23
  const JOIN_ACCEPT_LEN := 17
  const JOIN_ACCEPT_WITH_CFLIST_LEN := 33
  const DATA_MIN_LEN := 12

  // -------- What the reader promises, by position in the input --------

  predicate IsData(m: MType) {
    m.UnconfirmedUp? || m.UnconfirmedDown? || m.ConfirmedUp? || m.ConfirmedDown?
  }

  function TypeOf(b: bytes): MType
    requires b != []
  {
    MTypeFromBits(b[0] / 32)
  }

  function FoptsLenOf(b: bytes): nat
    requires |b| > 5
  {
    b[5] % 16
  }

  /** A data frame long enough for its options, without port 0 beside options. */
  predicate DataAccepted(b: bytes) {
    && |b| >= DATA_MIN_LEN
    && var k := FoptsLenOf(b);
       && |b| >= DATA_MIN_LEN + k
       && !(k > 0 && |b| > DATA_MIN_LEN + k && b[8 + k] == 0)
  }

  /** Exactly the byte strings that the reader accepts. */
  predicate Accepted(b: bytes) {
    && b != []
    && match TypeOf(b)
       case JoinRequest => |b| == JOIN_REQUEST_LEN
       case JoinAccept => |b| == JOIN_ACCEPT_LEN || |b| == JOIN_ACCEPT_WITH_CFLIST_LEN
       case Proprietary => |b| >= DATA_MIN_LEN
       case Invalid(_) => false
       case _ => DataAccepted(b)
  }

  /** The error for each byte string that the reader refuses. */
  function Rejection(b: bytes): LoraWanError
    requires !Accepted(b)
  {
    if b == [] then Io(UnexpectedEof)
    else
      var m := TypeOf(b);
      if m.Invalid? then InvalidPacketType(m.v)
      else if !IsData(m) || |b| < DATA_MIN_LEN then InvalidPacketSize(m, |b|)
      else if |b| < DATA_MIN_LEN + FoptsLenOf(b) then Io(UnexpectedEof)
      else InvalidFPortForFopts
  }

  function CtrlFor(direction: Direction, bits: u8): FCtrl {
    if direction.Uplink? then UplinkCtrl(bits) else DownlinkCtrl(bits)
  }

  function DataFor(m: MType, data: bytes): FrmPayload
    requires IsData(m)
  {
    match m
    case UnconfirmedUp => UnconfirmedUpData(data)
    case UnconfirmedDown => UnconfirmedDownData(data)
    case ConfirmedUp => ConfirmedUpData(data)
    case ConfirmedDown => ConfirmedDownData(data)
  }

  /** The fields of a data frame, each cut from its place in the input. */
  function DataFields(direction: Direction, b: bytes): MacPayload
    requires b != [] && IsData(TypeOf(b)) && DataAccepted(b)
  {
    var k, end := FoptsLenOf(b), |b| - 4;
    MacPayload(
      Fhdr(LE32(b[1..5]), CtrlFor(direction, b[5]), LE16(b[6..8]), b[8..8 + k]),
      if 8 + k == end then None else Some(b[8 + k]),
      if 8 + k == end then None else Some(DataFor(TypeOf(b), b[9 + k..end])))
  }

  /** The frame that an accepted byte string denotes. */
  function Fields(direction: Direction, b: bytes): PhyPayload
    requires Accepted(b)
  {
    var mhdr, m := Mhdr(b[0]), TypeOf(b);
    match m
    case JoinRequest =>
      PhyPayload(mhdr, JoinRequestFrame(JoinRequestBody(LE64(b[1..9]), LE64(b[9..17]), b[17..19])), Some(b[19..]))
    case JoinAccept =>
      PhyPayload(mhdr, JoinAcceptFrame(JoinAcceptBody(b[1..4], b[4..7], LE32(b[7..11]), b[11], b[12])),
                 Some(b[|b| - 4..]))
    case Proprietary =>
      PhyPayload(mhdr, ProprietaryFrame(b[1..]), None)
    case _ =>
      PhyPayload(mhdr, MacFrame(DataFields(direction, b)), Some(b[|b| - 4..]))
  }

  function ReadSpec(direction: Direction, b: bytes): Result<PhyPayload, LoraWanError> {
    if Accepted(b) then Ok(Fields(direction, b)) else Err(Rejection(b))
  }

  // -------- The reader --------

  method ReadU8(reader: Reader) returns (r: Result<u8, LoraWanError>)
    modifies reader
    ensures r == if old(reader.rest) == [] then Err(Io(UnexpectedEof)) else Ok(old(reader.rest)[0])
    ensures r.Ok? ==> reader.rest == old(reader.rest)[1..]
  {
    var x := reader.ReadExact(1);
    if x.Err? {
      return Err(Io(UnexpectedEof));
    }
    r := Ok(x.value[0]);
  }

  method ReadBytes(n: nat, reader: Reader) returns (r: Result<bytes, LoraWanError>)
    modifies reader
    ensures r == if |old(reader.rest)| < n then Err(Io(UnexpectedEof)) else Ok(old(reader.rest)[..n])
    ensures r.Ok? ==> reader.rest == old(reader.rest)[n..]
  {
    var x := reader.ReadExact(n);
    if x.Err? {
      return Err(Io(UnexpectedEof));
    }
    r := Ok(x.value);
  }

  /** The size of the frame header that starts `d`, or one more than `|d|` when it is cut short. */
  function FhdrSize(d: bytes): nat {
    if |d| < 7 || |d| < 7 + d[4] % 16 then |d| + 1 else 7 + d[4] % 16
  }

  function FhdrOf(direction: Direction, d: bytes): Fhdr
    requires FhdrSize(d) <= |d|
  {
    Fhdr(LE32(d[..4]), CtrlFor(direction, d[4]), LE16(d[5..7]), d[7..FhdrSize(d)])
  }

  method ReadFhdr(direction: Direction, reader: Reader) returns (r: Result<Fhdr, LoraWanError>)
    modifies reader
    ensures var d := old(reader.rest);
            r == if FhdrSize(d) > |d| then Err(Io(UnexpectedEof)) else Ok(FhdrOf(direction, d))
    ensures r.Ok? ==> reader.rest == old(reader.rest)[FhdrSize(old(reader.rest))..]
  {
    hide FromLE;
    ghost var d := reader.rest;
    var devAddr :- ReadBytes(4, reader);
    var ctrl :- ReadU8(reader);
    var fctrl := CtrlFor(direction, ctrl);
    assert reader.rest == d[5..];
    var fcnt :- ReadBytes(2, reader);
    assert fcnt == d[5..7] && reader.rest == d[7..];
    var fopts :- ReadBytes(fctrl.FoptsLen(), reader);
    assert fopts == d[7..FhdrSize(d)] && reader.rest == d[FhdrSize(d)..];
    r := Ok(Fhdr(LE32(devAddr), fctrl, LE16(fcnt), fopts));
  }

  /** The source's `unreachable!()` is the types that this method must not be called with. */
  method ReadFrmPayload(payloadType: MType, reader: Reader) returns (r: Result<FrmPayload, LoraWanError>)
    requires IsData(payloadType) || payloadType.Invalid?
    modifies reader
    ensures r == if payloadType.Invalid? then Err(InvalidPacketType(payloadType.v))
                 else Ok(DataFor(payloadType, old(reader.rest)))
  {
    if payloadType.Invalid? {
      return Err(InvalidPacketType(payloadType.v));
    }
    var data := reader.ReadToEnd();
    r := Ok(DataFor(payloadType, data));
  }

  function MacSpec(direction: Direction, m: MType, d: bytes): Result<MacPayload, LoraWanError>
    requires IsData(m) || m.Invalid?
  {
    var k := FhdrSize(d);
    if k > |d| then Err(Io(UnexpectedEof))
    else if k == |d| then Ok(MacPayload(FhdrOf(direction, d), None, None))
    else if m.Invalid? then Err(InvalidPacketType(m.v))
    else if d[k] == 0 && k > 7 then Err(InvalidFPortForFopts)
    else Ok(MacPayload(FhdrOf(direction, d), Some(d[k]), Some(DataFor(m, d[k + 1..]))))
  }

  method ReadMacPayload(payloadType: MType, direction: Direction, reader: Reader)
    returns (r: Result<MacPayload, LoraWanError>)
    requires IsData(payloadType) || payloadType.Invalid?
    modifies reader
    ensures r == MacSpec(direction, payloadType, old(reader.rest))
  {
    hide FromLE;
    var fhdr :- ReadFhdr(direction, reader);
    var data := reader.ReadToEnd();
    var fport: Option<u8>, payload: Option<FrmPayload> := None, None;
    if data != [] {
      var inner := new Reader(data[1..]);
      var p :- ReadFrmPayload(payloadType, inner);
      fport, payload := Some(data[0]), Some(p);
    }
    if fport == Some(0) && fhdr.fctrl.FoptsLen() > 0 {
      return Err(InvalidFPortForFopts);
    }
    r := Ok(MacPayload(fhdr, fport, payload));
  }

  method ReadJoinRequest(reader: Reader) returns (r: Result<JoinRequestBody, LoraWanError>)
    modifies reader
    ensures var d := old(reader.rest);
            r == if |d| < 18 then Err(Io(UnexpectedEof))
                 else Ok(JoinRequestBody(LE64(d[..8]), LE64(d[8..16]), d[16..18]))
  {
    hide FromLE;
    ghost var d := reader.rest;
    var appEui :- ReadBytes(8, reader);
    var devEui :- ReadBytes(8, reader);
    assert devEui == d[8..16] && reader.rest == d[16..];
    var devNonce :- ReadBytes(2, reader);
    assert devNonce == d[16..18];
    r := Ok(JoinRequestBody(LE64(appEui), LE64(devEui), devNonce));
  }

  /** Reads twelve bytes and ignores whatever follows. */
  method ReadJoinAccept(reader: Reader) returns (r: Result<JoinAcceptBody, LoraWanError>)
    modifies reader
    ensures var d := old(reader.rest);
            r == if |d| < 12 then Err(Io(UnexpectedEof))
                 else Ok(JoinAcceptBody(d[..3], d[3..6], LE32(d[6..10]), d[10], d[11]))
  {
    hide FromLE;
    ghost var d := reader.rest;
    var appNonce :- ReadBytes(3, reader);
    var netId :- ReadBytes(3, reader);
    assert netId == d[3..6] && reader.rest == d[6..];
    var devAddr :- ReadBytes(4, reader);
    assert devAddr == d[6..10] && reader.rest == d[10..];
    var dlSettings :- ReadU8(reader);
    assert reader.rest == d[11..];
    var rxDelay :- ReadU8(reader);
    r := Ok(JoinAcceptBody(appNonce, netId, LE32(devAddr), dlSettings, rxDelay));
  }

  function FrameSpec(direction: Direction, m: MType, d: bytes): Result<PhyPayloadFrame, LoraWanError> {
    match m
    case JoinRequest =>
      if |d| < 18 then Err(Io(UnexpectedEof))
      else Ok(JoinRequestFrame(JoinRequestBody(LE64(d[..8]), LE64(d[8..16]), d[16..18])))
    case JoinAccept =>
      if |d| < 12 then Err(Io(UnexpectedEof))
      else Ok(JoinAcceptFrame(JoinAcceptBody(d[..3], d[3..6], LE32(d[6..10]), d[10], d[11])))
    case Proprietary =>
      Ok(ProprietaryFrame(d))
    case _ =>
      var mac :- MacSpec(direction, m, d);
      Ok(MacFrame(mac))
  }

  method ReadFrame(direction: Direction, packetType: MType, reader: Reader)
    returns (r: Result<PhyPayloadFrame, LoraWanError>)
    modifies reader
    ensures r == FrameSpec(direction, packetType, old(reader.rest))
  {
    match packetType {
      case JoinRequest =>
        var x :- ReadJoinRequest(reader);
        r := Ok(JoinRequestFrame(x));
      case JoinAccept =>
        var x :- ReadJoinAccept(reader);
        r := Ok(JoinAcceptFrame(x));
      case Proprietary =>
        var x := reader.ReadToEnd();
        r := Ok(ProprietaryFrame(x));
      case _ =>
        var x :- ReadMacPayload(packetType, direction, reader);
        r := Ok(MacFrame(x));
    }
  }

  predicate BadSize(m: MType, size: nat) {
    match m
    case JoinRequest => size != JOIN_REQUEST_LEN
    case JoinAccept => size != JOIN_ACCEPT_LEN && size != JOIN_ACCEPT_WITH_CFLIST_LEN
    case Invalid(_) => false
    case _ => size < DATA_MIN_LEN
  }

  /** The sequential reader is total and does what the positions say. */
  method ReadPhyPayload(direction: Direction, reader: Reader) returns (r: Result<PhyPayload, LoraWanError>)
    modifies reader
    ensures r == ReadSpec(direction, old(reader.rest))
    ensures r.Ok? <==> Accepted(old(reader.rest))
  {
    hide FromLE;
    ghost var b := reader.rest;
    var bits :- ReadU8(reader);
    var mhdr := Mhdr(bits);
    var packetType := mhdr.MType();
    var data := reader.ReadToEnd();
    var phyLen := |data| + 1;
    if BadSize(packetType, phyLen) {
      return Err(InvalidPacketSize(packetType, phyLen));
    } else if packetType.Invalid? {
      return Err(InvalidPacketType(packetType.v));
    }
    var mic: Option<bytes> := None;
    if packetType != Proprietary {
      var split := |data| - 4;
      mic := Some(data[split..]);
      data := data[..split];
    }
    var inner := new Reader(data);
    BodyIsFields(direction, b);
    assert data == Body(b);
    var payload :- ReadFrame(direction, packetType, inner);
    r := Ok(PhyPayload(mhdr, payload, mic));
  }

  /** The part of the input that the frame reader sees. */
  function Body(b: bytes): bytes
    requires b != [] && !BadSize(TypeOf(b), |b|) && !TypeOf(b).Invalid?
  {
    if TypeOf(b).Proprietary? then b[1..] else b[1..|b| - 4]
  }

  /** Reading the body in sequence cuts the same fields as reading the input by position. */
  lemma BodyIsFields(direction: Direction, b: bytes)
    ensures b == [] ==> ReadSpec(direction, b) == Err(Io(UnexpectedEof))
    ensures b != [] && TypeOf(b).Invalid? ==> ReadSpec(direction, b) == Err(InvalidPacketType(TypeOf(b).v))
    ensures b != [] && BadSize(TypeOf(b), |b|) ==> ReadSpec(direction, b) == Err(InvalidPacketSize(TypeOf(b), |b|))
    ensures b != [] && !BadSize(TypeOf(b), |b|) && !TypeOf(b).Invalid? ==>
            match FrameSpec(direction, TypeOf(b), Body(b))
            case Err(e) => ReadSpec(direction, b) == Err(e)
            case Ok(frame) =>
              var mic := if TypeOf(b).Proprietary? then None else Some(b[|b| - 4..]);
              ReadSpec(direction, b) == Ok(PhyPayload(Mhdr(b[0]), frame, mic))
  {
    hide FromLE;
    if b != [] && !BadSize(TypeOf(b), |b|) && IsData(TypeOf(b)) {
      DataBody(direction, b);
    } else if |b| >= 17 {
      JoinBody(b);
    }
  }

  lemma DataBody(direction: Direction, b: bytes)
    requires |b| >= DATA_MIN_LEN && IsData(TypeOf(b))
    ensures var d := b[1..|b| - 4];
            && (FhdrSize(d) <= |d| <==> |b| >= DATA_MIN_LEN + FoptsLenOf(b))
            && (MacSpec(direction, TypeOf(b), d).Ok? <==> DataAccepted(b))
            && (DataAccepted(b) ==> MacSpec(direction, TypeOf(b), d).value == DataFields(direction, b))
  {
    hide FromLE;
    var n, k := |b| - 4, FoptsLenOf(b);
    SliceOfSlice(b, 1, n, 0, 4);
    SliceOfSlice(b, 1, n, 5, 7);
    if |b| >= DATA_MIN_LEN + k {
      SliceOfSlice(b, 1, n, 7, 7 + k);
      if |b| > DATA_MIN_LEN + k {
        SliceOfSlice(b, 1, n, 8 + k, n - 1);
      }
    }
  }

  lemma JoinBody(b: bytes)
    requires |b| >= 17
    ensures var d := b[1..|b| - 4];
            && d[..3] == b[1..4] && d[3..6] == b[4..7] && d[6..10] == b[7..11]
            && (|b| == 23 ==> d[..8] == b[1..9] && d[8..16] == b[9..17] && d[16..18] == b[17..19])
  {
    var n := |b| - 4;
    SliceOfSlice(b, 1, n, 0, 3);
    SliceOfSlice(b, 1, n, 3, 6);
    SliceOfSlice(b, 1, n, 6, 10);
    if |b| == 23 {
      SliceOfSlice(b, 1, n, 0, 8);
      SliceOfSlice(b, 1, n, 8, 16);
      SliceOfSlice(b, 1, n, 16, 18);
    }
  }

  // -------- The writer --------

  function EmitFhdr(h: Fhdr): bytes {
    ToLE(h.devAddr, 4) + ToLE(h.devAddr, 4) + [h.fctrl.bits] + ToLE(h.fcnt, 2) + h.fopts
  }

  function EmitMac(mac: MacPayload): bytes {
    EmitFhdr(mac.fhdr)
    + (if mac.fport.Some? then [mac.fport.value] else [])
    + (if mac.payload.Some? then mac.payload.value.data else [])
  }

  function EmitFrame(frame: PhyPayloadFrame): bytes {
    match frame
    case MacFrame(mac) => EmitMac(mac)
    case JoinRequestFrame(r) => ToLE(r.appEui, 8) + ToLE(r.devEui, 8) + r.devNonce
    case JoinAcceptFrame(a) => a.appNonce + a.netId + ToLE(a.devAddr, 4) + [a.dlSettings] + [a.rxDelay]
    case ProprietaryFrame(data) => data
  }

  /** The bytes that a frame is written as. */
  function Emit(p: PhyPayload): bytes {
    [p.mhdr.bits] + EmitFrame(p.payload) + (if p.mic.Some? then p.mic.value else [])
  }

  /** The header writes the address twice and counts it once. */
  method WriteFhdr(h: Fhdr, output: Sink) returns (count: nat)
    modifies output
    ensures output.written == old(output.written) + EmitFhdr(h)
    ensures count + 4 == |EmitFhdr(h)|
  {
    hide ToLE;
    count := 0;
    var _ := output.Write(ToLE(h.devAddr, 4));
    count := count + 4;
    var _ := output.Write(ToLE(h.devAddr, 4));
    var n := output.Write([h.fctrl.bits]);
    count := count + n;
    var _ := output.Write(ToLE(h.fcnt, 2));
    count := count + 2;
    n := output.Write(h.fopts);
    count := count + n;
  }

  method WriteMacPayload(mac: MacPayload, output: Sink) returns (count: nat)
    modifies output
    ensures output.written == old(output.written) + EmitMac(mac)
    ensures count + 4 == |EmitMac(mac)|
  {
    hide EmitFhdr;
    count := WriteFhdr(mac.fhdr, output);
    if mac.fport.Some? {
      var n := output.Write([mac.fport.value]);
      count := count + n;
    }
    if mac.payload.Some? {
      var n := output.Write(mac.payload.value.data);
      count := count + n;
    }
  }

  method WriteJoinRequest(r: JoinRequestBody, output: Sink) returns (count: nat)
    modifies output
    ensures output.written == old(output.written) + EmitFrame(JoinRequestFrame(r))
    ensures count == |EmitFrame(JoinRequestFrame(r))|
  {
    hide ToLE;
    count := 0;
    var _ := output.Write(ToLE(r.appEui, 8));
    count := count + 8;
    var _ := output.Write(ToLE(r.devEui, 8));
    count := count + 8;
    var n := output.Write(r.devNonce);
    count := count + n;
  }

  method WriteJoinAccept(a: JoinAcceptBody, output: Sink) returns (count: nat)
    modifies output
    ensures output.written == old(output.written) + EmitFrame(JoinAcceptFrame(a))
    ensures count == |EmitFrame(JoinAcceptFrame(a))|
  {
    hide ToLE;
    count := output.Write(a.appNonce);
    var n := output.Write(a.netId);
    count := count + n;
    var _ := output.Write(ToLE(a.devAddr, 4));
    count := count + 4;
    var _ := output.Write([a.dlSettings]);
    count := count + 1;
    var _ := output.Write([a.rxDelay]);
    count := count + 1;
  }

  method WriteFrame(frame: PhyPayloadFrame, output: Sink) returns (count: nat)
    modifies output
    ensures output.written == old(output.written) + EmitFrame(frame)
    ensures count + (if frame.MacFrame? then 4 else 0) == |EmitFrame(frame)|
  {
    hide EmitMac;
    match frame {
      case MacFrame(mac) =>
        count := WriteMacPayload(mac, output);
      case JoinRequestFrame(r) =>
        count := WriteJoinRequest(r, output);
      case JoinAcceptFrame(a) =>
        count := WriteJoinAccept(a, output);
      case ProprietaryFrame(data) =>
        count := output.Write(data);
    }
  }

  /** Data frames report four bytes fewer than they write; every other frame reports what it writes. */
  method WritePhyPayload(p: PhyPayload, output: Sink) returns (count: nat)
    modifies output
    ensures output.written == old(output.written) + Emit(p)
    ensures count + (if p.payload.MacFrame? then 4 else 0) == |Emit(p)|
  {
    hide EmitFrame;
    count := output.Write([p.mhdr.bits]);
    var n := WriteFrame(p.payload, output);
    count := count + n;
    if p.mic.Some? {
      n := output.Write(p.mic.value);
      count := count + n;
    }
  }

  // -------- Writing what was read --------

  /** Byte for byte what writing an accepted input gives back. */
  function Rewritten(b: bytes): bytes
    requires Accepted(b)
  {
    if IsData(TypeOf(b)) then b[..5] + b[1..5] + b[5..]
    else if |b| == JOIN_ACCEPT_WITH_CFLIST_LEN && TypeOf(b).JoinAccept? then b[..13] + b[29..]
    else b
  }

  lemma EmitHeaderFields(direction: Direction, b: bytes, k: nat)
    requires |b| >= 8 + k
    ensures EmitFhdr(Fhdr(LE32(b[1..5]), CtrlFor(direction, b[5]), LE16(b[6..8]), b[8..8 + k]))
            == b[1..5] + b[1..8 + k]
  {
    hide ToLE, FromLE;
    ToLEFromLE(b[1..5]);
    ToLEFromLE(b[6..8]);
    assert b[1..8 + k] == b[1..5] + [b[5]] + b[6..8] + b[8..8 + k];
  }

  lemma EmitDataFields(direction: Direction, b: bytes)
    requires b != [] && IsData(TypeOf(b)) && DataAccepted(b)
    ensures EmitMac(DataFields(direction, b)) == b[1..5] + b[1..|b| - 4]
  {
    hide EmitFhdr;
    var k, end := FoptsLenOf(b), |b| - 4;
    EmitHeaderFields(direction, b, k);
    if 8 + k == end {
      assert b[1..end] == b[1..8 + k];
    } else {
      assert b[1..end] == b[1..8 + k] + [b[8 + k]] + b[9 + k..end];
    }
  }

  lemma DoubledAddress(b: bytes)
    requires |b| >= DATA_MIN_LEN
    ensures [b[0]] + (b[1..5] + b[1..|b| - 4]) + b[|b| - 4..] == b[..5] + b[1..5] + b[5..]
  {
    var end := |b| - 4;
    assert b[1..end] + b[end..] == b[1..5] + b[5..];
    assert [b[0]] + b[1..5] == b[..5];
    assert [b[0]] + (b[1..5] + b[1..end]) + b[end..] == [b[0]] + b[1..5] + (b[1..end] + b[end..]);
  }

  lemma RewriteData(direction: Direction, b: bytes)
    requires Accepted(b) && IsData(TypeOf(b))
    ensures Emit(Fields(direction, b)) == b[..5] + b[1..5] + b[5..]
  {
    hide EmitMac, DataFields;
    EmitDataFields(direction, b);
    DoubledAddress(b);
  }

  lemma RewriteJoinRequest(direction: Direction, b: bytes)
    requires Accepted(b) && TypeOf(b).JoinRequest?
    ensures Emit(Fields(direction, b)) == b
  {
    hide ToLE, FromLE;
    ToLEFromLE(b[1..9]);
    ToLEFromLE(b[9..17]);
    assert b == [b[0]] + b[1..9] + b[9..17] + b[17..19] + b[19..];
  }

  lemma EmitJoinAcceptFields(b: bytes)
    requires |b| >= 13
    ensures EmitFrame(JoinAcceptFrame(JoinAcceptBody(b[1..4], b[4..7], LE32(b[7..11]), b[11], b[12]))) == b[1..13]
  {
    hide ToLE, FromLE;
    ToLEFromLE(b[7..11]);
    assert b[1..4] + b[4..7] == b[1..7];
    assert b[1..7] + b[7..11] == b[1..11];
    assert b[1..11] + [b[11]] + [b[12]] == b[1..13];
  }

  lemma RewriteJoinAccept(direction: Direction, b: bytes)
    requires Accepted(b) && TypeOf(b).JoinAccept?
    ensures Emit(Fields(direction, b)) == b[..13] + b[|b| - 4..]
  {
    hide EmitFrame, FromLE;
    EmitJoinAcceptFields(b);
    assert [b[0]] + b[1..13] == b[..13];
  }

  /**
    Write after read: join requests, short join accepts and proprietary frames come back unchanged; a
    join accept loses its channel list; a data frame comes back with its address doubled.
   */
  lemma WriteAfterRead(direction: Direction, b: bytes)
    requires Accepted(b)
    ensures Emit(Fields(direction, b)) == Rewritten(b)
    ensures Rewritten(b) == b
            <==> !IsData(TypeOf(b)) && !(TypeOf(b).JoinAccept? && |b| == JOIN_ACCEPT_WITH_CFLIST_LEN)
  {
    if IsData(TypeOf(b)) {
      hide Emit, Fields;
      RewriteData(direction, b);
    } else if TypeOf(b).JoinRequest? {
      hide Emit, Fields;
      RewriteJoinRequest(direction, b);
    } else if TypeOf(b).JoinAccept? {
      hide Emit, Fields;
      RewriteJoinAccept(direction, b);
    }
  }

  /** Both directions accept the same inputs, refuse the rest alike, and differ only in the control tag. */
  lemma DirectionOnlyTags(b: bytes)
    ensures Accepted(b) ==>
            var up, down := Fields(Uplink, b), Fields(Downlink, b);
            && up.mhdr == down.mhdr && up.mic == down.mic
            && (if IsData(TypeOf(b)) then
                  && up.payload.MacFrame? && down.payload.MacFrame?
                  && up.payload.mac.fhdr.fctrl == UplinkCtrl(b[5])
                  && up.payload.mac.(fhdr := up.payload.mac.fhdr.(fctrl := DownlinkCtrl(b[5]))) == down.payload.mac
                else up == down)
  {
  }

  // -------- Reading what was written --------

  /** The frames that survive writing: not data frames, and every part of the width the wire gives it. */
  ghost predicate Survives(p: PhyPayload) {
    match p.payload
    case JoinRequestFrame(r) =>
      p.mhdr.MType().JoinRequest? && |r.devNonce| == 2 && p.mic.Some? && |p.mic.value| == 4
    case JoinAcceptFrame(a) =>
      && p.mhdr.MType().JoinAccept? && |a.appNonce| == 3 && |a.netId| == 3
      && p.mic.Some? && |p.mic.value| == 4
    case ProprietaryFrame(data) =>
      p.mhdr.MType().Proprietary? && p.mic.None? && |data| >= 11
    case MacFrame(_) => false
  }

  lemma SurvivorReadsBack(direction: Direction, p: PhyPayload)
    requires Survives(p)
    ensures ReadSpec(direction, Emit(p)) == Ok(p)
  {
    hide ToLE, FromLE;
    var b := Emit(p);
    Widths();
    match p.payload
    case JoinRequestFrame(r) =>
      FromLEToLE(r.appEui, 8);
      FromLEToLE(r.devEui, 8);
      assert b[1..9] == ToLE(r.appEui, 8) && b[9..17] == ToLE(r.devEui, 8);
      assert b[17..19] == r.devNonce && b[19..] == p.mic.value;
    case JoinAcceptFrame(a) =>
      FromLEToLE(a.devAddr, 4);
      assert b[1..4] == a.appNonce && b[4..7] == a.netId && b[7..11] == ToLE(a.devAddr, 4);
      assert b[13..] == p.mic.value;
    case ProprietaryFrame(data) =>
      assert b[1..] == data;
  }

  /** A written data frame never reads back as itself: the doubled address makes the text too long. */
  lemma DataNeverReadsBack(direction: Direction, p: PhyPayload)
    requires p.payload.MacFrame?
    ensures ReadSpec(direction, Emit(p)) != Ok(p)
  {
    var b := Emit(p);
    if Accepted(b) {
      hide Emit;
      WriteAfterRead(direction, b);
    }
  }

  /** Read after write: a frame reads back as itself exactly when it survives. */
  lemma ReadAfterWrite(direction: Direction, p: PhyPayload)
    ensures ReadSpec(direction, Emit(p)) == Ok(p) <==> Survives(p)
  {
    if p.payload.MacFrame? {
      DataNeverReadsBack(direction, p);
    } else if Survives(p) {
      SurvivorReadsBack(direction, p);
    } else if ReadSpec(direction, Emit(p)) == Ok(p) {
      FieldsShape(direction, Emit(p));
    }
  }

  lemma FieldsShape(direction: Direction, b: bytes)
    requires Accepted(b) && !IsData(TypeOf(b))
    ensures Survives(Fields(direction, b))
  {
  }

  // -------- Proprietary frames and beacons --------

  function ProprietaryPayload(data: bytes): PhyPayload {
    PhyPayload(Mhdr(0).SetMType(Proprietary), ProprietaryFrame(data), None)
  }

  const MIN_BEACON_V0_PAYLOAD_SIZE := 5
  const MAX_BEACON_V0_PAYLOAD_SIZE := 10

  /** A proprietary frame is refused on reading exactly when its payload is shorter than 11 bytes. */
  lemma ProprietaryReadBack(direction: Direction, data: bytes)
    ensures var r := ReadSpec(direction, Emit(ProprietaryPayload(data)));
            if |data| >= 11 then r == Ok(ProprietaryPayload(data))
            else r == Err(InvalidPacketSize(Proprietary, |data| + 1))
  {
    var p := ProprietaryPayload(data);
    assert p.mhdr.bits == 224;
    ReadAfterWrite(direction, p);
  }

  // -------- From the bytes to the result --------

  /** Every message type but the reserved one is coded and decoded without loss. */
  lemma MTypeRoundTrip(m: MType)
    requires !m.Invalid?
    ensures MTypeFromBits(MTypeToBits(m)) == m && MTypeToBits(m) < 8
  {
  }

  /** The first byte decides what an input is read as, and its length whether it is read. */
  lemma ReadByHeader(direction: Direction, b: bytes)
    ensures b == [] ==> ReadSpec(direction, b) == Err(Io(UnexpectedEof))
    ensures b != [] && b[0] < 32 ==>
            ReadSpec(direction, b) ==
            if |b| == 23 then
              var body := JoinRequestBody(LE64(b[1..9]), LE64(b[9..17]), b[17..19]);
              Ok(PhyPayload(Mhdr(b[0]), JoinRequestFrame(body), Some(b[19..23])))
            else Err(InvalidPacketSize(JoinRequest, |b|))
    ensures b != [] && 32 <= b[0] < 64 ==>
            ReadSpec(direction, b) ==
            if |b| == 17 || |b| == 33 then
              var body := JoinAcceptBody(b[1..4], b[4..7], LE32(b[7..11]), b[11], b[12]);
              Ok(PhyPayload(Mhdr(b[0]), JoinAcceptFrame(body), Some(b[|b| - 4..])))
            else Err(InvalidPacketSize(JoinAccept, |b|))
    ensures b != [] && 192 <= b[0] < 224 ==> ReadSpec(direction, b) == Err(InvalidPacketType(6))
    ensures b != [] && 224 <= b[0] ==>
            ReadSpec(direction, b) ==
            if |b| >= 12 then Ok(PhyPayload(Mhdr(b[0]), ProprietaryFrame(b[1..]), None))
            else Err(InvalidPacketSize(Proprietary, |b|))
  {
    hide FromLE;
    if b != [] && b[0] < 32 && |b| == 23 {
      assert b[19..] == b[19..23];
    }
  }

  /** A data frame: what is too short, what has port 0 beside options, and every field of the rest. */
  lemma ReadDataByHeader(direction: Direction, b: bytes)
    requires b != [] && 64 <= b[0] < 192
    ensures |b| < 12 ==>
            ReadSpec(direction, b) ==
            Err(InvalidPacketSize(if b[0] < 96 then UnconfirmedUp else if b[0] < 128 then UnconfirmedDown
                                  else if b[0] < 160 then ConfirmedUp else ConfirmedDown, |b|))
    ensures |b| >= 12 ==>
            var k, end := b[5] % 16, |b| - 4;
            ReadSpec(direction, b) ==
            if |b| < 12 + k then Err(Io(UnexpectedEof))
            else if k > 0 && |b| > 12 + k && b[8 + k] == 0 then Err(InvalidFPortForFopts)
            else
              var ctrl := if direction.Uplink? then UplinkCtrl(b[5]) else DownlinkCtrl(b[5]);
              var fhdr := Fhdr(LE32(b[1..5]), ctrl, LE16(b[6..8]), b[8..8 + k]);
              var mac :=
                if |b| == 12 + k then MacPayload(fhdr, None, None)
                else
                  var data := b[9 + k..end];
                  MacPayload(fhdr, Some(b[8 + k]),
                             Some(if b[0] < 96 then UnconfirmedUpData(data)
                                  else if b[0] < 128 then UnconfirmedDownData(data)
                                  else if b[0] < 160 then ConfirmedUpData(data) else ConfirmedDownData(data)));
              Ok(PhyPayload(Mhdr(b[0]), MacFrame(mac), Some(b[end..])))
  {
    hide FromLE;
  }
}
