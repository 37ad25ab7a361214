/**
  The blocks of an ordered list of NetIDs packed, in list order, into one contiguous subnet space,
  and the two translations between that space and LoRaWAN DevAddrs.
 */
module Subnet {
  import opened Bits
  import opened DevaddrCode

  const RETIRED_NETID: u32 := 0x20_0010

  type NetidList = seq<u32>

  /** The sum of the block sizes. */
  function Total(list: NetidList): nat {
    if list == [] then 0 else NetidSize(list[0]) + Total(list[1..])
  }

  /** The sum of the block sizes in front of the first occurrence of `netid`. */
  function Before(netid: u32, list: NetidList): nat {
    if list == [] || list[0] == netid then 0 else NetidSize(list[0]) + Before(netid, list[1..])
  }

  /** The packed range of a NetID; 32-bit additions wrap around. */
  function AddrRange(netid: u32, list: NetidList): (u32, u32) {
    if netid in list then
      (Wrap32(Before(netid, list)), Wrap32(Before(netid, list) + NetidSize(netid)))
    else
      (0, 0)
  }

  /** The accumulating loop computes the prefix sums of `AddrRange`. */
  method NetidAddrRange(netid: u32, list: NetidList) returns (lower: u32, upper: u32)
    ensures (lower, upper) == AddrRange(netid, list)
  {
    hide NetidSize;
    lower, upper := 0, 0;
    if netid in list {
      ghost var sum: nat := 0;
      for i := 0 to |list|
        invariant netid in list[i..]
        invariant sum + Before(netid, list[i..]) == Before(netid, list)
        invariant lower == upper == Wrap32(sum)
      {
        var size := NetidSize(list[i]);
        WrapAdd(sum, size);
        assert list[i..] == [list[i]] + list[i + 1..];
        if list[i] == netid {
          upper := Wrap32(upper + size);
          break;
        }
        lower := Wrap32(lower + size);
        upper := lower;
        sum := sum + size;
      }
    }
  }

  predicate SubnetAddrWithinRange(subnetaddr: u32, netid: u32, list: NetidList) {
    var (lower, upper) := AddrRange(netid, list);
    lower <= subnetaddr < upper
  }

  /** The first of `items` whose range in `list` holds the address, or 0. */
  function FindNetid(subnetaddr: u32, items: NetidList, list: NetidList): u32 {
    if items == [] then 0
    else if SubnetAddrWithinRange(subnetaddr, items[0], list) then items[0]
    else FindNetid(subnetaddr, items[1..], list)
  }

  function SubnetAddrToNetid(subnetaddr: u32, list: NetidList): u32 {
    FindNetid(subnetaddr, list, list)
  }

  function DevaddrFromSubnet(subnetaddr: u32, list: NetidList): u32 {
    var netid := SubnetAddrToNetid(subnetaddr, list);
    Devaddr(netid, Wrap32(subnetaddr - AddrRange(netid, list).0))
  }

  function SubnetFromDevaddr(devaddr: u32, list: NetidList): u32 {
    Wrap32(AddrRange(ParseNetid(devaddr), list).0 + NwkAddr(devaddr))
  }

  predicate IsLocalNetid(netid: u32, list: NetidList) {
    netid == RETIRED_NETID || netid in list
  }

  predicate IsLocalDevaddr(devaddr: u32, list: NetidList) {
    IsLocalNetid(ParseNetid(devaddr), list)
  }

  /** What the configuration promises: assigned NetIDs, none listed twice. */
  ghost predicate ValidList(list: NetidList) {
    && (forall i | 0 <= i < |list| :: ValidNetid(list[i]))
    && (forall i, j | 0 <= i < j < |list| :: list[i] != list[j])
  }

  // -------- No 32-bit sum overflows --------

  ghost function Interval(lo: nat, hi: nat): (r: set<nat>)
    requires lo <= hi
    ensures forall d: nat :: d in r <==> lo <= d < hi
    ensures |r| == hi - lo
    decreases hi
  {
    if lo == hi then {} else Interval(lo, hi - 1) + {hi - 1}
  }

  /** The addresses that the listed NetIDs own. */
  ghost function Owned(list: NetidList): set<nat> {
    set d: nat | d < UNASSIGNED && ParseNetid(d) in list
  }

  ghost function Block(netid: u32): set<nat>
    requires ValidNetid(netid)
  {
    Interval(BlockBase(netid), BlockBase(netid) + NetidSize(netid))
  }

  /** A block is exactly the set of addresses that parse to its NetID. */
  lemma BlockIsOwned(netid: u32)
    requires ValidNetid(netid)
    ensures Block(netid) == Owned([netid])
  {
    hide ParseNetid, NetidSize, Devaddr, NwkAddr;
    forall d: nat | d in Block(netid)
      ensures d in Owned([netid])
    {
      var a := d - BlockBase(netid);
      DevaddrClosedForm(netid, a);
      ReadBack(netid, a);
    }
    forall d: nat | d in Owned([netid])
      ensures d in Block(netid)
    {
      Rebuild(d);
      DevaddrClosedForm(netid, NwkAddr(d));
    }
  }

  lemma OwnedSplit(netid: u32, rest: NetidList)
    ensures Owned([netid] + rest) == Owned([netid]) + Owned(rest)
    ensures netid !in rest ==> Owned([netid]) !! Owned(rest)
  {
    hide ParseNetid;
  }

  /** Distinct NetIDs own disjoint blocks, so the sizes add up to a count of addresses. */
  lemma {:induction false} TotalCountsOwned(list: NetidList)
    requires ValidList(list)
    ensures Total(list) == |Owned(list)|
  {
    hide ParseNetid, NetidSize;
    if list != [] {
      var netid, rest := list[0], list[1..];
      TotalCountsOwned(rest);
      BlockIsOwned(netid);
      OwnedSplit(netid, rest);
      assert list == [netid] + rest;
    } else {
      assert Owned(list) == {};
    }
  }

  lemma SubsetSize(a: set<nat>, b: set<nat>)
    requires a <= b
    ensures |a| <= |b|
  {
    assert b == a + (b - a);
  }

  /** However many valid NetIDs are listed, their blocks fit below the unassigned addresses. */
  lemma TotalBound(list: NetidList)
    requires ValidList(list)
    ensures Total(list) <= UNASSIGNED
  {
    hide ParseNetid;
    TotalCountsOwned(list);
    SubsetSize(Owned(list), Interval(0, UNASSIGNED));
  }

  lemma RangeNoWrap(netid: u32, list: NetidList)
    requires netid in list && Before(netid, list) + NetidSize(netid) < TWO_32
    ensures AddrRange(netid, list) == (Before(netid, list), Before(netid, list) + NetidSize(netid))
  {
    hide NetidSize;
  }

  /** The range arithmetic is exact: every listed range is what plain addition gives. */
  lemma RangeExact(netid: u32, list: NetidList)
    requires ValidList(list) && netid in list
    ensures AddrRange(netid, list) == (Before(netid, list), Before(netid, list) + NetidSize(netid))
    ensures Before(netid, list) + NetidSize(netid) <= Total(list) <= UNASSIGNED
  {
    hide NetidSize;
    BeforeBound(netid, list);
    TotalBound(list);
    RangeNoWrap(netid, list);
  }

  lemma {:induction false} BeforeBound(netid: u32, list: NetidList)
    requires netid in list
    ensures Before(netid, list) + NetidSize(netid) <= Total(list)
  {
    hide NetidSize;
    if list[0] == netid {
    } else {
      BeforeBound(netid, list[1..]);
    }
  }

  // -------- The ranges partition the subnet space --------

  ghost predicate Holds(s: nat, netid: u32, list: NetidList) {
    Before(netid, list) <= s < Before(netid, list) + NetidSize(netid)
  }

  /** Ranges of different NetIDs do not overlap. */
  lemma {:induction false} RangesDisjoint(s: nat, a: u32, b: u32, list: NetidList)
    requires a in list && b in list && Holds(s, a, list) && Holds(s, b, list)
    ensures a == b
  {
    if list[0] == a || list[0] == b {
    } else {
      RangesDisjoint(s - NetidSize(list[0]), a, b, list[1..]);
    }
  }

  /** Every address below the total lies in some listed range. */
  lemma {:induction false} RangesCover(s: nat, list: NetidList) returns (netid: u32)
    requires s < Total(list) && ValidList(list)
    ensures netid in list && Holds(s, netid, list)
  {
    if s < NetidSize(list[0]) {
      netid := list[0];
    } else {
      netid := RangesCover(s - NetidSize(list[0]), list[1..]);
    }
  }

  lemma WithinIsHolds(s: u32, netid: u32, list: NetidList)
    requires ValidList(list)
    ensures SubnetAddrWithinRange(s, netid, list) <==> netid in list && Holds(s, netid, list)
  {
    if netid in list {
      RangeExact(netid, list);
    }
  }

  lemma {:induction false} FindFirst(s: u32, items: NetidList, list: NetidList)
    ensures var n := FindNetid(s, items, list);
            if exists m :: m in items && SubnetAddrWithinRange(s, m, list)
            then n in items && SubnetAddrWithinRange(s, n, list) else n == 0
  {
    if items == [] || SubnetAddrWithinRange(s, items[0], list) {
    } else {
      FindFirst(s, items[1..], list);
    }
  }

  /** The search finds the one listed NetID whose range holds the address, and 0 past the end. */
  lemma SearchExact(s: u32, netid: u32, list: NetidList)
    requires ValidList(list)
    ensures netid in list && Holds(s, netid, list) ==> SubnetAddrToNetid(s, list) == netid
    ensures s >= Total(list) ==> SubnetAddrToNetid(s, list) == 0
  {
    FindFirst(s, list, list);
    WithinIsHolds(s, netid, list);
    var n := SubnetAddrToNetid(s, list);
    WithinIsHolds(s, n, list);
    if netid in list && Holds(s, netid, list) {
      RangesDisjoint(s, netid, n, list);
    }
    if s >= Total(list) && exists m :: m in list && SubnetAddrWithinRange(s, m, list) {
      BeforeBound(n, list);
      assert false;
    }
  }

  // -------- The two translations --------

  lemma SubnetOf(d: u32, netid: u32, lower: nat, list: NetidList)
    requires netid == ParseNetid(d) && lower == AddrRange(netid, list).0 && lower + NwkAddr(d) < TWO_32
    ensures SubnetFromDevaddr(d, list) == lower + NwkAddr(d)
  {
    hide ParseNetid, NwkAddr, AddrRange;
  }

  lemma DevaddrOf(s: u32, netid: u32, lower: nat, list: NetidList)
    requires netid == SubnetAddrToNetid(s, list) && lower == AddrRange(netid, list).0 && lower <= s
    ensures DevaddrFromSubnet(s, list) == Devaddr(netid, s - lower)
  {
    hide Devaddr, AddrRange;
  }

  lemma ListedIsAssigned(d: u32, list: NetidList)
    requires ValidList(list) && ParseNetid(d) in list
    ensures d < UNASSIGNED
  {
    hide ParseNetid;
    if d >= UNASSIGNED {
      Unassigned(d);
    }
  }

  /** Listed addresses go into the subnet space and come back unchanged. */
  lemma ListedRoundTrip(d: u32, list: NetidList)
    requires ValidList(list) && ParseNetid(d) in list
    ensures SubnetFromDevaddr(d, list) < Total(list)
    ensures DevaddrFromSubnet(SubnetFromDevaddr(d, list), list) == d
  {
    hide Devaddr, ParseNetid, NwkAddr, NetidSize, AddrRange, DevaddrFromSubnet, SubnetFromDevaddr;
    var netid, lower := ParseNetid(d), Before(ParseNetid(d), list);
    ListedIsAssigned(d, list);
    Rebuild(d);
    RangeExact(netid, list);
    SubnetOf(d, netid, lower, list);
    SearchExact(lower + NwkAddr(d), netid, list);
    DevaddrOf(lower + NwkAddr(d), netid, lower, list);
  }

  /** Subnet addresses below the total go to listed addresses and come back unchanged. */
  lemma PackedRoundTrip(s: u32, list: NetidList)
    requires ValidList(list) && s < Total(list)
    ensures ParseNetid(DevaddrFromSubnet(s, list)) in list
    ensures SubnetFromDevaddr(DevaddrFromSubnet(s, list), list) == s
  {
    hide Devaddr, ParseNetid, NwkAddr, NetidSize, AddrRange, DevaddrFromSubnet, SubnetFromDevaddr;
    var netid := RangesCover(s, list);
    var lower := Before(netid, list);
    RangeExact(netid, list);
    SearchExact(s, netid, list);
    DevaddrOf(s, netid, lower, list);
    ReadBack(netid, s - lower);
    SubnetOf(Devaddr(netid, s - lower), netid, lower, list);
  }

  // -------- Exactly when a translation can be undone --------

  /** Class 0 and id 0 contribute no bits, so the address field stands alone, however wide it is. */
  lemma DevaddrOfZero(nwkaddr: u32)
    ensures Devaddr(0, nwkaddr) == nwkaddr
  {
    hide Or, Scale, And;
    ScaleZero(IdLen(0));
    ScaleZero(AddrLen(0));
    IdMask(0);
    ZeroOr(0);
    ZeroOr(nwkaddr);
  }

  lemma UnlistedSubnet(d: u32, list: NetidList)
    requires ParseNetid(d) !in list
    ensures SubnetFromDevaddr(d, list) == NwkAddr(d)
  {
    hide ParseNetid, NwkAddr;
  }

  /** Past the packed ranges the search falls back to NetID 0 and only subtracts that NetID's lower bound. */
  lemma PastTotal(s: u32, list: NetidList)
    requires ValidList(list) && s >= Total(list)
    ensures 0 in list ==> Before(0, list) + 0x200_0000 <= Total(list)
    ensures DevaddrFromSubnet(s, list) == s - (if 0 in list then Before(0, list) else 0)
  {
    hide Devaddr, AddrRange, NetidSize;
    SearchExact(s, 0, list);
    var lower := if 0 in list then Before(0, list) else 0;
    assert lower == AddrRange(0, list).0 <= s && (0 in list ==> lower + 0x200_0000 <= Total(list)) by {
      ZeroRange(list);
    }
    DevaddrOf(s, 0, lower, list);
    DevaddrOfZero(s - lower);
  }

  lemma ZeroRange(list: NetidList)
    requires ValidList(list)
    ensures AddrRange(0, list).0 == if 0 in list then Before(0, list) else 0
    ensures 0 in list ==> Before(0, list) + 0x200_0000 <= Total(list)
  {
    Powers();
    if 0 in list {
      RangeExact(0, list);
    }
  }

  /**
    A DevAddr survives the trip through the subnet space exactly when its NetID is listed; the only
    others are low addresses that both translations pass through because NetID 0 is not listed.
   */
  lemma DevaddrSurvives(d: u32, list: NetidList)
    requires ValidList(list)
    ensures DevaddrFromSubnet(SubnetFromDevaddr(d, list), list) == d
            <==> ParseNetid(d) in list || (0 !in list && Total(list) <= d < 0x200_0000)
  {
    hide Devaddr, ParseNetid, NwkAddr, NetidSize, AddrRange, DevaddrFromSubnet, SubnetFromDevaddr;
    if ParseNetid(d) in list {
      ListedRoundTrip(d, list);
    } else {
      UnlistedSubnet(d, list);
      NwkAddrRange(d);
      if NwkAddr(d) < Total(list) {
        PackedRoundTrip(NwkAddr(d), list);
      } else {
        PastTotal(NwkAddr(d), list);
      }
    }
  }

  /** A subnet address survives the trip through DevAddrs exactly when it is below the total, or passes through. */
  lemma SubnetSurvives(s: u32, list: NetidList)
    requires ValidList(list)
    ensures SubnetFromDevaddr(DevaddrFromSubnet(s, list), list) == s
            <==> s < Total(list) || (0 !in list && s < 0x200_0000)
  {
    hide Devaddr, ParseNetid, NwkAddr, NetidSize, AddrRange, DevaddrFromSubnet, SubnetFromDevaddr;
    if s < Total(list) {
      PackedRoundTrip(s, list);
    } else {
      PastTotal(s, list);
      var d := DevaddrFromSubnet(s, list);
      NwkAddrRange(d);
      if ParseNetid(d) in list {
        ListedRoundTrip(d, list);
      } else {
        UnlistedSubnet(d, list);
      }
    }
  }

  /**
    Of the addresses the gateway treats as local, the ones that cannot be translated back are exactly
    those of the retired NetID while it is not listed; those come back as addresses of listed blocks exactly
    when their network address is below the total.
   */
  lemma LocalSurvives(d: u32, list: NetidList)
    requires ValidList(list) && IsLocalDevaddr(d, list)
    ensures DevaddrFromSubnet(SubnetFromDevaddr(d, list), list) == d
            <==> !(ParseNetid(d) == RETIRED_NETID && RETIRED_NETID !in list)
    ensures RETIRED_NETID !in list && ParseNetid(d) == RETIRED_NETID
            ==> (ParseNetid(DevaddrFromSubnet(SubnetFromDevaddr(d, list), list)) in list <==> NwkAddr(d) < Total(list))
  {
    hide Devaddr, ParseNetid, NwkAddr, DevaddrFromSubnet, SubnetFromDevaddr;
    DevaddrSurvives(d, list);
    NwkAddrRange(d);
    if RETIRED_NETID !in list && ParseNetid(d) == RETIRED_NETID {
      RetiredComesBack(d, list);
    }
  }

  // -------- Addresses of the retired NetID --------

  /**
    By design an address of the retired NetID comes back under a current NetID. It does exactly when its network
    address is below the total; past the total it comes back as the bare network address, under NetID 0, which is then
    neither listed nor local.
   */
  lemma RetiredComesBack(d: u32, list: NetidList)
    requires ValidList(list) && RETIRED_NETID !in list && ParseNetid(d) == RETIRED_NETID
    ensures var back := DevaddrFromSubnet(SubnetFromDevaddr(d, list), list);
            && (ParseNetid(back) in list <==> NwkAddr(d) < Total(list))
            && (IsLocalDevaddr(back, list) <==> NwkAddr(d) < Total(list))
            && (NwkAddr(d) >= Total(list) ==> back == NwkAddr(d) && ParseNetid(back) == 0)
  {
    hide Devaddr, ParseNetid, NwkAddr, NetidSize, AddrRange, DevaddrFromSubnet, SubnetFromDevaddr;
    NwkAddrRange(d);
    UnlistedSubnet(d, list);
    if NwkAddr(d) < Total(list) {
      PackedRoundTrip(NwkAddr(d), list);
    } else {
      PastTotal(NwkAddr(d), list);
      NwkAddrRange(NwkAddr(d));
    }
  }

  lemma RetiredSize()
    ensures ValidNetid(RETIRED_NETID) && NetidSize(RETIRED_NETID) == 0x100_0000
  {
    Powers();
  }

  /** The design holds for every address of the retired NetID exactly when the listed blocks add up to its size. */
  lemma RetiredAllComeBack(list: NetidList)
    requires ValidList(list) && RETIRED_NETID !in list
    ensures (forall d: u32 | ParseNetid(d) == RETIRED_NETID ::
               ParseNetid(DevaddrFromSubnet(SubnetFromDevaddr(d, list), list)) in list)
            <==> Total(list) >= 0x100_0000
  {
    hide Devaddr, ParseNetid, NwkAddr, NetidSize, DevaddrFromSubnet, SubnetFromDevaddr;
    RetiredSize();
    forall d: u32 | ParseNetid(d) == RETIRED_NETID
      ensures ParseNetid(DevaddrFromSubnet(SubnetFromDevaddr(d, list), list)) in list <==> NwkAddr(d) < Total(list)
      ensures NwkAddr(d) < 0x100_0000
    {
      RetiredComesBack(d, list);
      if d >= UNASSIGNED {
        Unassigned(d);
      } else {
        Rebuild(d);
      }
    }
    var last := Devaddr(RETIRED_NETID, 0xFF_FFFF);
    ReadBack(RETIRED_NETID, 0xFF_FFFF);
    assert ParseNetid(last) == RETIRED_NETID && NwkAddr(last) == 0xFF_FFFF;
  }

  /** With one small block listed, the retired address 0x90000080 comes back as 0x80, of NetID 0. */
  lemma RetiredGoesAstray()
    ensures var d, list := 0x9000_0080, [0xE0_0001];
            var back := DevaddrFromSubnet(SubnetFromDevaddr(d, list), list);
            && ValidList(list) && ParseNetid(d) == RETIRED_NETID && IsLocalDevaddr(d, list)
            && back == 0x80 && ParseNetid(back) == 0 && !IsLocalDevaddr(back, list)
  {
    hide Devaddr, ParseNetid, NwkAddr, DevaddrFromSubnet, SubnetFromDevaddr, NetidSize;
    var d, list: NetidList := 0x9000_0080, [0xE0_0001];
    RetiredSize();
    SmallBlock();
    RetiredBase();
    DevaddrClosedForm(RETIRED_NETID, 0x80);
    ReadBack(RETIRED_NETID, 0x80);
    assert list[1..] == [];
    assert Total(list) == 0x80;
    RetiredComesBack(d, list);
  }

  lemma SmallBlock()
    ensures ValidNetid(0xE0_0001) && NetidSize(0xE0_0001) == 0x80
  {
    Powers();
  }

  lemma RetiredBase()
    requires ValidNetid(RETIRED_NETID)
    ensures BlockBase(RETIRED_NETID) == 0x9000_0000
  {
    Powers();
    ScaleIsProduct(0x10, AddrLen(1));
  }

  // -------- No sum or difference of a translation leaves its range --------

  /** For every address, listed or not, the sum that `subnet_from_devaddr` takes fits in 32 bits. */
  lemma SumFits(d: u32, list: NetidList)
    requires ValidList(list)
    ensures AddrRange(ParseNetid(d), list).0 + NwkAddr(d) < TWO_32
    ensures SubnetFromDevaddr(d, list) == AddrRange(ParseNetid(d), list).0 + NwkAddr(d)
  {
    hide ParseNetid, NwkAddr, NetidSize;
    var netid := ParseNetid(d);
    NwkAddrRange(d);
    if netid in list {
      ListedIsAssigned(d, list);
      Rebuild(d);
      RangeExact(netid, list);
    }
  }

  /** For every subnet address, below the total or not, the difference in `devaddr_from_subnet` is not negative. */
  lemma DifferenceFits(s: u32, list: NetidList)
    requires ValidList(list)
    ensures AddrRange(SubnetAddrToNetid(s, list), list).0 <= s
  {
    hide NetidSize, AddrRange;
    if s < Total(list) {
      var netid := RangesCover(s, list);
      SearchExact(s, netid, list);
      RangeExact(netid, list);
    } else {
      SearchExact(s, 0, list);
      ZeroRange(list);
    }
  }

  // -------- The packing, position by position --------

  lemma {:induction false} TotalTail(list: NetidList, i: nat)
    requires 0 < i <= |list|
    ensures Total(list[..i]) == NetidSize(list[0]) + Total(list[1..][..i - 1])
  {
    hide NetidSize;
    assert list[..i][1..] == list[1..][..i - 1];
  }

  lemma {:induction false} BeforeAt(list: NetidList, i: nat)
    requires ValidList(list) && i < |list|
    ensures Before(list[i], list) == Total(list[..i])
  {
    hide NetidSize;
    if i == 0 {
    } else {
      BeforeAt(list[1..], i - 1);
      TotalTail(list, i);
    }
  }

  /** The blocks lie in list order: an address of the NetID at position `i` comes after all blocks before it. */
  lemma PackedInOrder(d: u32, list: NetidList, i: nat)
    requires ValidList(list) && i < |list| && ParseNetid(d) == list[i]
    ensures SubnetFromDevaddr(d, list) == Total(list[..i]) + NwkAddr(d)
    ensures Total(list[..i + 1]) == Total(list[..i]) + NetidSize(list[i])
  {
    hide ParseNetid, NwkAddr, NetidSize, AddrRange, SubnetFromDevaddr;
    BeforeAt(list, i);
    SumFits(d, list);
    RangeExact(list[i], list);
    TotalAppend(list[..i], list[i]);
    assert list[..i + 1] == list[..i] + [list[i]];
  }

  lemma {:induction false} TotalAppend(list: NetidList, netid: u32)
    ensures Total(list + [netid]) == Total(list) + NetidSize(netid)
  {
    hide NetidSize;
    if list == [] {
      assert [netid][1..] == [];
    } else {
      TotalAppend(list[1..], netid);
      assert (list + [netid])[1..] == list[1..] + [netid];
    }
  }

  /** The local addresses are those of the retired block and those of the listed blocks. */
  lemma LocalExact(d: u32, list: NetidList)
    requires ValidList(list)
    ensures IsLocalDevaddr(d, list) <==>
            0x9000_0000 <= d < 0x9100_0000 || exists i | 0 <= i < |list| :: d in Block(list[i])
  {
    hide ParseNetid, NetidSize, Devaddr, NwkAddr, BlockBase;
    RetiredSize();
    RetiredBase();
    BlockIsOwned(RETIRED_NETID);
    assert d in Block(RETIRED_NETID) <==> 0x9000_0000 <= d < 0x9100_0000;
    if ParseNetid(d) == RETIRED_NETID {
      RetiredAssigned(d);
    }
    forall i | 0 <= i < |list|
      ensures d in Block(list[i]) <==> ParseNetid(d) == list[i]
    {
      BlockIsOwned(list[i]);
      if ParseNetid(d) == list[i] {
        ListedIsAssigned(d, list);
      }
    }
  }

  lemma RetiredAssigned(d: u32)
    requires ParseNetid(d) == RETIRED_NETID
    ensures d < UNASSIGNED
  {
    hide ParseNetid;
    if d >= UNASSIGNED {
      Unassigned(d);
    }
  }
}
