/** The LoRaWAN DevAddr prefix code: NetID class, NetID and network address packed into 32 bits. */
module DevaddrCode {
  import opened Bits

  /** NetIDs carry their class above this many id values. */
  const CLASS_UNIT := 0x20_0000

  /** The first DevAddr that belongs to no NetID class. */
  const UNASSIGNED: u32 := 0xFF00_0000

  function NetidClass(netid: u32): u8 {
    netid / CLASS_UNIT % 256
  }

  function AddrLen(netclass: u8): nat {
    match netclass
    case 0 => 25
    case 1 => 24
    case 2 => 20
    case 3 => 17
    case 4 => 15
    case 5 => 13
    case 6 => 10
    case 7 => 7
    case _ => 0
  }

  function IdLen(netclass: u8): nat {
    match netclass
    case 0 => 6
    case 1 => 6
    case 2 => 9
    case 3 => 11
    case 4 => 12
    case 5 => 13
    case 6 => 15
    case 7 => 17
    case _ => 0
  }

  /** As many one bits as the class number, then a zero bit; class 0 and unknown classes contribute nothing. */
  function ClassPrefix(netclass: u8): nat {
    match netclass
    case 0 => 0x00
    case 1 => 0x02
    case 2 => 0x06
    case 3 => 0x0E
    case 4 => 0x1E
    case 5 => 0x3E
    case 6 => 0x7E
    case 7 => 0xFE
    case _ => 0
  }

  function VarNetClass(netclass: u8): u32 {
    Shl32(ClassPrefix(netclass), IdLen(netclass))
  }

  function VarNetid(netclass: u8, netid: u32): u32 {
    Shl32(netid, AddrLen(netclass))
  }

  function Devaddr(netid: u32, nwkaddr: u32): u32 {
    var netclass := NetidClass(netid);
    IdMask(netid);
    var id := And(netid, 0x1F_FFFF);
    Or32(VarNetid(netclass, Or32(VarNetClass(netclass), id)), nwkaddr)
  }

  function NetidShiftPrefix(prefix: u8, index: nat): u8
    requires index <= 7
  {
    if And(prefix, Pow2(index)) == 0 then 7 - index
    else if index > 0 then NetidShiftPrefix(prefix, index - 1)
    else 0
  }

  function NetidType(devaddr: u32): u8 {
    NetidShiftPrefix(devaddr / 0x100_0000, 7)
  }

  function GetNetid(devaddr: u32, prefixLen: nat, nwkidbits: nat): u32
    requires prefixLen > 0 && nwkidbits <= 31
  {
    Shr(Shl32(devaddr, prefixLen - 1), 31 - nwkidbits)
  }

  function ParseNetid(devaddr: u32): u32 {
    var netType := NetidType(devaddr);
    Or32(GetNetid(devaddr, netType + 1, IdLen(netType)), netType * CLASS_UNIT)
  }

  function NwkAddr(devaddr: u32): u32 {
    var len := AddrLen(NetidClass(ParseNetid(devaddr)));
    AndMask(devaddr, len);
    And(devaddr, Pow2(len) - 1)
  }

  function NetidSize(netid: u32): u32 {
    Powers();
    Pow2(AddrLen(NetidClass(netid)))
  }

  // -------- The prefix code, described as intervals of the DevAddr space --------

  /** Class `c` owns the DevAddrs that start with `c` one bits and a zero bit. */
  ghost function ClassBase(c: nat): nat
    requires c <= 8
  {
    match c
    case 0 => 0
    case 1 => 0x8000_0000
    case 2 => 0xC000_0000
    case 3 => 0xE000_0000
    case 4 => 0xF000_0000
    case 5 => 0xF800_0000
    case 6 => 0xFC00_0000
    case 7 => 0xFE00_0000
    case _ => 0xFF00_0000
  }

  ghost predicate InClass(devaddr: nat, c: nat) {
    c < 8 && ClassBase(c) <= devaddr < ClassBase(c + 1)
  }

  /** A NetID as the backend specification assigns them: a class up to 7 and an id of that class's width. */
  ghost predicate ValidNetid(netid: u32) {
    var c := netid / CLASS_UNIT;
    c < 8 && netid % CLASS_UNIT < Pow2(IdLen(c))
  }

  /** The first DevAddr of the block that a valid NetID owns. */
  ghost function BlockBase(netid: u32): nat
    requires ValidNetid(netid)
  {
    var c := netid / CLASS_UNIT;
    ClassBase(c) + Scale(netid % CLASS_UNIT, AddrLen(c))
  }

  lemma IdMask(netid: nat)
    ensures And(netid, 0x1F_FFFF) == netid % CLASS_UNIT
  {
    AndMask(netid, 21);
    FieldsAreDivMod(netid, 21);
    Powers();
  }

  lemma ClassSize(netid: u32)
    requires ValidNetid(netid)
    ensures NetidClass(netid) == netid / CLASS_UNIT
    ensures NetidSize(netid) == Pow2(AddrLen(netid / CLASS_UNIT))
  {
  }

  /** Prefix, id and address fields fill 32 bits, so the classes tile the space in order. */
  lemma ClassTiling(c: nat)
    requires c < 8
    ensures IdLen(c) + AddrLen(c) == 31 - c
    ensures Scale(ClassPrefix(c), 31 - c) == ClassBase(c)
    ensures ClassBase(c) + Pow2(31 - c) == ClassBase(c + 1) <= UNASSIGNED
  {
    Powers();
    Power32();
    ScaleIsProduct(ClassPrefix(c), 31 - c);
  }

  lemma ClassPack(c: u8, id: u32, nwkaddr: u32)
    requires c < 8 && id < Pow2(IdLen(c)) && nwkaddr < Pow2(AddrLen(c))
    ensures Or32(VarNetid(c, Or32(VarNetClass(c), id)), nwkaddr) == ClassBase(c) + Scale(id, AddrLen(c)) + nwkaddr
    ensures ClassBase(c) + Scale(id, AddrLen(c)) + nwkaddr < ClassBase(c + 1)
  {
    ClassTiling(c);
    PackFields(ClassPrefix(c), id, nwkaddr, IdLen(c), AddrLen(c));
    FieldBound(id, nwkaddr, IdLen(c), AddrLen(c));
  }

  /** The shifts and masks of `devaddr` compute a block base plus an offset. */
  lemma DevaddrClosedForm(netid: u32, nwkaddr: u32)
    requires ValidNetid(netid) && nwkaddr < NetidSize(netid)
    ensures Devaddr(netid, nwkaddr) == BlockBase(netid) + nwkaddr
    ensures InClass(Devaddr(netid, nwkaddr), netid / CLASS_UNIT)
  {
    hide VarNetid, VarNetClass, Or32;
    ClassSize(netid);
    IdMask(netid);
    ClassPack(netid / CLASS_UNIT, netid % CLASS_UNIT, nwkaddr);
  }

  lemma PrefixIsOnesThenZero(c: nat)
    requires c < 8
    ensures ClassPrefix(c) == 2 * (Pow2(c) - 1)
  {
    Powers();
  }

  /** In a byte that starts with the prefix of class `c`, bit `7 - c` is clear and the bits above are set. */
  lemma PrefixBit(prefix: u8, c: nat, k: nat)
    requires c < 8 && Shr(prefix, 7 - c) == ClassPrefix(c) && 7 - c <= k <= 7
    ensures And(prefix, Pow2(k)) == 0 <==> k == 7 - c
  {
    hide And, ClassPrefix, Pow2;
    AndBit(prefix, k);
    PrefixIsOnesThenZero(c);
    ShrShr(prefix, 7 - c, k - (7 - c));
    OnesThenZero(c, k - (7 - c));
  }

  /** The recursive bit test finds the first zero bit. */
  lemma {:induction false} PrefixScan(prefix: u8, c: nat, index: nat)
    requires c < 8 && Shr(prefix, 7 - c) == ClassPrefix(c) && 7 - c <= index <= 7
    ensures NetidShiftPrefix(prefix, index) == c
  {
    PrefixBit(prefix, c, index);
    if index == 7 - c {
    } else {
      PrefixScan(prefix, c, index - 1);
    }
  }

  /** The recursive bit test runs off the end of an all-ones byte. */
  lemma {:induction false} PrefixScanOnes(prefix: u8, index: nat)
    requires prefix == Pow2(8) - 1 && index <= 7
    ensures NetidShiftPrefix(prefix, index) == 0
  {
    hide And, Pow2;
    AndBit(prefix, index);
    ShrOnes(8, index);
    OnesAreOdd(8 - index);
    if index == 0 {
    } else {
      PrefixScanOnes(prefix, index - 1);
    }
  }

  lemma FirstByte(devaddr: u32)
    ensures devaddr / 0x100_0000 == Shr(devaddr, 24)
  {
    FieldsAreDivMod(devaddr, 24);
    Powers();
  }

  lemma TypeOfClass(devaddr: u32, c: nat)
    requires InClass(devaddr, c)
    ensures NetidType(devaddr) == c
  {
    ClassTiling(c);
    JoinFields(ClassPrefix(c), devaddr - ClassBase(c), 31 - c);
    FirstByte(devaddr);
    ShrShr(devaddr, 24, 7 - c);
    PrefixScan(devaddr / 0x100_0000, c, 7);
  }

  lemma PrefixShiftedOut(c: nat)
    requires c < 8
    ensures Scale(ClassBase(c), c) == (Pow2(c) - 1) * TWO_32
  {
    ScaleIsProduct(ClassBase(c), c);
    Powers();
  }

  /** Shifting the class prefix out of the top leaves the id and address fields. */
  lemma DropPrefix(devaddr: u32, c: nat)
    requires InClass(devaddr, c)
    ensures Shl32(devaddr, c) == Scale(devaddr - ClassBase(c), c)
  {
    var offset := devaddr - ClassBase(c);
    ClassTiling(c);
    PrefixShiftedOut(c);
    ScaleAdd(ClassBase(c), offset, c);
    assert Scale(offset, c) < TWO_32 by {
      ScaleStep(offset, Pow2(31 - c), c);
      ScaleScale(1, 31 - c, c);
      Power32();
    }
    WrapAround(Pow2(c) - 1, Scale(offset, c));
  }

  /** The id read back from a DevAddr is its offset in the class, without the address bits. */
  lemma IdOfClass(devaddr: u32, c: nat)
    requires InClass(devaddr, c)
    ensures GetNetid(devaddr, c + 1, IdLen(c)) == Shr(devaddr - ClassBase(c), AddrLen(c))
  {
    ClassTiling(c);
    DropPrefix(devaddr, c);
    ShrScale(devaddr - ClassBase(c), c, AddrLen(c));
  }

  lemma IdWidth(offset: nat, c: nat)
    requires c < 8 && offset < Pow2(31 - c)
    ensures Shr(offset, AddrLen(c)) < Pow2(IdLen(c))
  {
    ClassTiling(c);
    var id := Shr(offset, AddrLen(c));
    SplitFields(offset, AddrLen(c));
    ScaleScale(1, IdLen(c), AddrLen(c));
    if id > Pow2(IdLen(c)) {
      ScaleStep(Pow2(IdLen(c)), id, AddrLen(c));
    }
  }

  lemma IdFitsBelowClass(c: nat)
    requires c < 8
    ensures Pow2(IdLen(c)) <= CLASS_UNIT
  {
    Powers();
  }

  /** Or-ing the class above the id is addition. */
  lemma TagClass(id: u32, c: u8, k: nat)
    requires Pow2(k) == CLASS_UNIT && id < CLASS_UNIT
    ensures Or32(id, c * CLASS_UNIT) == c * CLASS_UNIT + id
  {
    ScaleIsProduct(c, k);
    OrFieldsBelow(c, id, k);
  }

  lemma AddrBitsOfClass(devaddr: u32, c: nat)
    requires InClass(devaddr, c)
    ensures And(devaddr, Pow2(AddrLen(c)) - 1) == Low(devaddr - ClassBase(c), AddrLen(c))
  {
    ClassTiling(c);
    AndMask(devaddr, AddrLen(c));
    ScaleScale(ClassPrefix(c), IdLen(c), AddrLen(c));
    LowOfSum(Scale(ClassPrefix(c), IdLen(c)), devaddr - ClassBase(c), AddrLen(c));
  }

  lemma NetidOfClass(devaddr: u32, c: nat)
    requires InClass(devaddr, c)
    ensures ParseNetid(devaddr) == c * CLASS_UNIT + Shr(devaddr - ClassBase(c), AddrLen(c))
    ensures Shr(devaddr - ClassBase(c), AddrLen(c)) < Pow2(IdLen(c)) <= CLASS_UNIT
  {
    var offset := devaddr - ClassBase(c);
    assert offset < Pow2(31 - c) by {
      ClassTiling(c);
    }
    IdWidth(offset, c);
    IdFitsBelowClass(c);
    TypeOfClass(devaddr, c);
    IdOfClass(devaddr, c);
    Powers();
    TagClass(Shr(offset, AddrLen(c)), c, 21);
  }

  /** The shifts and masks of `parse_netid` and `nwk_addr` split a class's interval into its two fields. */
  lemma ParseClosedForm(devaddr: u32, c: nat)
    requires InClass(devaddr, c)
    ensures var offset := devaddr - ClassBase(c);
            && ParseNetid(devaddr) == c * CLASS_UNIT + Shr(offset, AddrLen(c))
            && NwkAddr(devaddr) == Low(offset, AddrLen(c))
            && Shr(offset, AddrLen(c)) < Pow2(IdLen(c)) <= CLASS_UNIT
  {
    hide ParseNetid;
    NetidOfClass(devaddr, c);
    assert NetidClass(ParseNetid(devaddr)) == c;
    AddrBitsOfClass(devaddr, c);
  }

  // -------- The code is exact --------

  /** Reading a built address gives back the NetID and the network address. */
  lemma ReadBack(netid: u32, nwkaddr: u32)
    requires ValidNetid(netid) && nwkaddr < NetidSize(netid)
    ensures ParseNetid(Devaddr(netid, nwkaddr)) == netid
    ensures NwkAddr(Devaddr(netid, nwkaddr)) == nwkaddr
    ensures Devaddr(netid, nwkaddr) < UNASSIGNED
  {
    hide ParseNetid, NwkAddr, Devaddr;
    var c, id := netid / CLASS_UNIT, netid % CLASS_UNIT;
    ClassSize(netid);
    DevaddrClosedForm(netid, nwkaddr);
    ParseClosedForm(Devaddr(netid, nwkaddr), c);
    JoinFields(id, nwkaddr, AddrLen(c));
  }

  lemma ClassOf(devaddr: u32) returns (c: nat)
    requires devaddr < UNASSIGNED
    ensures InClass(devaddr, c)
  {
    c := if devaddr < 0x8000_0000 then 0 else if devaddr < 0xC000_0000 then 1
         else if devaddr < 0xE000_0000 then 2 else if devaddr < 0xF000_0000 then 3
         else if devaddr < 0xF800_0000 then 4 else if devaddr < 0xFC00_0000 then 5
         else if devaddr < 0xFE00_0000 then 6 else 7;
  }

  lemma RebuildFields(netid: u32, nwkaddr: u32, c: nat, offset: nat)
    requires c < 8 && Shr(offset, AddrLen(c)) < Pow2(IdLen(c)) <= CLASS_UNIT
    requires netid == c * CLASS_UNIT + Shr(offset, AddrLen(c)) && nwkaddr == Low(offset, AddrLen(c))
    ensures ValidNetid(netid) && nwkaddr < NetidSize(netid)
    ensures Devaddr(netid, nwkaddr) == ClassBase(c) + offset
  {
    hide Devaddr;
    assert netid / CLASS_UNIT == c && netid % CLASS_UNIT == Shr(offset, AddrLen(c));
    SplitFields(offset, AddrLen(c));
    ClassSize(netid);
    DevaddrClosedForm(netid, nwkaddr);
  }

  /** Every address below the unassigned range is the one its own NetID and network address build. */
  lemma Rebuild(devaddr: u32)
    requires devaddr < UNASSIGNED
    ensures ValidNetid(ParseNetid(devaddr))
    ensures NwkAddr(devaddr) < NetidSize(ParseNetid(devaddr))
    ensures Devaddr(ParseNetid(devaddr), NwkAddr(devaddr)) == devaddr
  {
    hide ParseNetid, NwkAddr, Devaddr, NetidSize;
    var c := ClassOf(devaddr);
    ParseClosedForm(devaddr, c);
    RebuildFields(ParseNetid(devaddr), NwkAddr(devaddr), c, devaddr - ClassBase(c));
  }

  lemma TopSeven(devaddr: u32, k: nat)
    requires devaddr >= UNASSIGNED && Pow2(k) == 0x200_0000
    ensures Shr(devaddr, k) == 127 && Low(devaddr, k) == devaddr % 0x200_0000
  {
    FieldsAreDivMod(devaddr, k);
  }

  lemma UnassignedType(devaddr: u32)
    requires devaddr >= UNASSIGNED
    ensures NetidType(devaddr) == 0
  {
    Powers();
    PrefixScanOnes(devaddr / 0x100_0000, 7);
  }

  lemma UnassignedId(devaddr: u32, idLen: nat)
    requires devaddr >= UNASSIGNED && idLen <= 31 && Pow2(31 - idLen) == 0x200_0000
    ensures GetNetid(devaddr, 1, idLen) == 127
  {
    TopSeven(devaddr, 31 - idLen);
  }

  lemma UnassignedNetid(devaddr: u32)
    requires devaddr >= UNASSIGNED
    ensures ParseNetid(devaddr) == 127
  {
    UnassignedType(devaddr);
    ClassTiling(0);
    Powers();
    UnassignedId(devaddr, IdLen(0));
    OrZero(127);
  }

  /** The addresses with eight leading ones all parse to 127, which is no valid NetID. */
  lemma Unassigned(devaddr: u32)
    requires devaddr >= UNASSIGNED
    ensures ParseNetid(devaddr) == 127 && !ValidNetid(127)
    ensures NwkAddr(devaddr) == devaddr % 0x200_0000
  {
    UnassignedNetid(devaddr);
    assert Pow2(6) == 64 && Pow2(AddrLen(0)) == 0x200_0000 by {
      Powers();
    }
    AndMask(devaddr, AddrLen(0));
    TopSeven(devaddr, AddrLen(0));
  }

  lemma BlockSizes(netid: u32)
    requires ValidNetid(netid)
    ensures NetidSize(netid) <= 0x200_0000
    ensures BlockBase(netid) >= 0x200_0000 <==> netid != 0
    ensures BlockBase(0) == 0
  {
    var c, id := netid / CLASS_UNIT, netid % CLASS_UNIT;
    ClassSize(netid);
    Powers();
    ScaleIsProduct(id, AddrLen(c));
    ScaleIsProduct(0, AddrLen(0));
  }

  /** A network address has at most 25 bits, and only the block of NetID 0 is its own network address. */
  lemma NwkAddrRange(devaddr: u32)
    ensures NwkAddr(devaddr) < 0x200_0000
    ensures NwkAddr(devaddr) == devaddr <==> devaddr < 0x200_0000
    ensures devaddr < 0x200_0000 <==> ParseNetid(devaddr) == 0
  {
    hide ParseNetid, NwkAddr, Devaddr, NetidSize;
    if devaddr >= UNASSIGNED {
      Unassigned(devaddr);
    } else {
      Rebuild(devaddr);
      DevaddrClosedForm(ParseNetid(devaddr), NwkAddr(devaddr));
      BlockSizes(ParseNetid(devaddr));
    }
  }

  // -------- The assignment, class by class --------

  /** The valid NetIDs and the size of their blocks, in numbers. */
  lemma SizeByClass(netid: u32)
    ensures ValidNetid(netid) <==>
            match netid / 0x20_0000
            case 0 => netid % 0x20_0000 < 0x40
            case 1 => netid % 0x20_0000 < 0x40
            case 2 => netid % 0x20_0000 < 0x200
            case 3 => netid % 0x20_0000 < 0x800
            case 4 => netid % 0x20_0000 < 0x1000
            case 5 => netid % 0x20_0000 < 0x2000
            case 6 => netid % 0x20_0000 < 0x8000
            case 7 => netid % 0x20_0000 < 0x2_0000
            case _ => false
    ensures match netid / 0x20_0000
            case 0 => NetidSize(netid) == 0x200_0000
            case 1 => NetidSize(netid) == 0x100_0000
            case 2 => NetidSize(netid) == 0x10_0000
            case 3 => NetidSize(netid) == 0x2_0000
            case 4 => NetidSize(netid) == 0x8000
            case 5 => NetidSize(netid) == 0x2000
            case 6 => NetidSize(netid) == 0x400
            case 7 => NetidSize(netid) == 0x80
            case _ => true
  {
    Powers();
  }

  /** The DevAddrs of a valid NetID, in numbers. */
  lemma DevaddrByClass(netid: u32, nwkaddr: u32)
    requires ValidNetid(netid) && nwkaddr < NetidSize(netid)
    ensures var id := netid % 0x20_0000;
            match netid / 0x20_0000
            case 0 => Devaddr(netid, nwkaddr) == id * 0x200_0000 + nwkaddr
            case 1 => Devaddr(netid, nwkaddr) == 0x8000_0000 + id * 0x100_0000 + nwkaddr
            case 2 => Devaddr(netid, nwkaddr) == 0xC000_0000 + id * 0x10_0000 + nwkaddr
            case 3 => Devaddr(netid, nwkaddr) == 0xE000_0000 + id * 0x2_0000 + nwkaddr
            case 4 => Devaddr(netid, nwkaddr) == 0xF000_0000 + id * 0x8000 + nwkaddr
            case 5 => Devaddr(netid, nwkaddr) == 0xF800_0000 + id * 0x2000 + nwkaddr
            case 6 => Devaddr(netid, nwkaddr) == 0xFC00_0000 + id * 0x400 + nwkaddr
            case 7 => Devaddr(netid, nwkaddr) == 0xFE00_0000 + id * 0x80 + nwkaddr
            case _ => false
  {
    hide Devaddr, NetidSize;
    DevaddrClosedForm(netid, nwkaddr);
    var c := netid / CLASS_UNIT;
    ScaleIsProduct(netid % CLASS_UNIT, AddrLen(c));
    Powers();
  }

  lemma ParseDivMod(devaddr: u32, c: nat, offset: nat, size: nat)
    requires InClass(devaddr, c) && offset == devaddr - ClassBase(c) && size == Pow2(AddrLen(c))
    ensures size > 0 && ParseNetid(devaddr) == c * CLASS_UNIT + offset / size && NwkAddr(devaddr) == offset % size
  {
    hide ParseNetid, NwkAddr;
    ParseClosedForm(devaddr, c);
    FieldsAreDivMod(offset, AddrLen(c));
  }

  /** The NetID and the network address of every DevAddr, in numbers. */
  lemma ParseByClass(devaddr: u32)
    ensures
      if devaddr < 0x8000_0000 then
        && ParseNetid(devaddr) == devaddr / 0x200_0000
        && NwkAddr(devaddr) == devaddr % 0x200_0000
      else if devaddr < 0xC000_0000 then
        && ParseNetid(devaddr) == 0x20_0000 + (devaddr - 0x8000_0000) / 0x100_0000
        && NwkAddr(devaddr) == (devaddr - 0x8000_0000) % 0x100_0000
      else if devaddr < 0xE000_0000 then
        && ParseNetid(devaddr) == 0x40_0000 + (devaddr - 0xC000_0000) / 0x10_0000
        && NwkAddr(devaddr) == (devaddr - 0xC000_0000) % 0x10_0000
      else if devaddr < 0xF000_0000 then
        && ParseNetid(devaddr) == 0x60_0000 + (devaddr - 0xE000_0000) / 0x2_0000
        && NwkAddr(devaddr) == (devaddr - 0xE000_0000) % 0x2_0000
      else if devaddr < 0xF800_0000 then
        && ParseNetid(devaddr) == 0x80_0000 + (devaddr - 0xF000_0000) / 0x8000
        && NwkAddr(devaddr) == (devaddr - 0xF000_0000) % 0x8000
      else if devaddr < 0xFC00_0000 then
        && ParseNetid(devaddr) == 0xA0_0000 + (devaddr - 0xF800_0000) / 0x2000
        && NwkAddr(devaddr) == (devaddr - 0xF800_0000) % 0x2000
      else if devaddr < 0xFE00_0000 then
        && ParseNetid(devaddr) == 0xC0_0000 + (devaddr - 0xFC00_0000) / 0x400
        && NwkAddr(devaddr) == (devaddr - 0xFC00_0000) % 0x400
      else if devaddr < 0xFF00_0000 then
        && ParseNetid(devaddr) == 0xE0_0000 + (devaddr - 0xFE00_0000) / 0x80
        && NwkAddr(devaddr) == (devaddr - 0xFE00_0000) % 0x80
      else ParseNetid(devaddr) == 127 && NwkAddr(devaddr) == devaddr % 0x200_0000
  {
    hide ParseNetid, NwkAddr;
    if devaddr >= UNASSIGNED {
      Unassigned(devaddr);
    } else {
      var c := ClassOf(devaddr);
      var size := Pow2(AddrLen(c));
      assert size == match c case 0 => 0x200_0000 case 1 => 0x100_0000 case 2 => 0x10_0000 case 3 => 0x2_0000
                             case 4 => 0x8000 case 5 => 0x2000 case 6 => 0x400 case _ => 0x80 by {
        Powers();
      }
      ParseDivMod(devaddr, c, devaddr - ClassBase(c), size);
      hide AddrLen, Pow2;
    }
  }
}
