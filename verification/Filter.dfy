/** The two kinds of routing filter, decoded from their packed binary forms. */
module Filter {
  import opened Bits
  import opened Wrappers
  import opened Bytes

  /** A filter of `2^23` device addresses: the range that starts at `base`. */
  datatype DevAddrFilter = DevAddrFilter(base: u32, size: u32) {
    predicate Contains(devaddr: u32) {
      AndMask(devaddr, 23);
      var addrBase := And(devaddr, BITS_23);
      addrBase >= base && addrBase < Wrap32(base + size)
    }
  }

  const BITS_23 := 8388607
  const BITS_25 := 33554431
  const TWO_23 := 0x80_0000
  const TWO_25 := 0x200_0000
  const TWO_48 := 0x1_0000_0000_0000

  function FromBE(b: bytes): (x: nat)
    ensures x < Pow256(|b|)
  {
    if b == [] then 0 else 256 * FromBE(b[..|b| - 1]) + b[|b| - 1]
  }

  function ToBE(x: nat, n: nat): (b: bytes)
    ensures |b| == n
  {
    if n == 0 then [] else ToBE(x / 256, n - 1) + [x % 256]
  }

  lemma {:induction false} ToBEFromBE(b: bytes)
    ensures ToBE(FromBE(b), |b|) == b
  {
    if b == [] {
    } else {
      var front := b[..|b| - 1];
      ToBEFromBE(front);
      assert FromBE(b) / 256 == FromBE(front) && FromBE(b) % 256 == b[|b| - 1];
      assert b == front + [b[|b| - 1]];
    }
  }

  lemma {:induction false} FromBEToBE(x: nat, n: nat)
    requires x < Pow256(n)
    ensures FromBE(ToBE(x, n)) == x
  {
    if n == 0 {
    } else {
      FromBEToBE(x / 256, n - 1);
      var b := ToBE(x, n);
      assert b[..|b| - 1] == ToBE(x / 256, n - 1);
    }
  }

  lemma SixBytes()
    ensures Pow256(6) == TWO_48
  {
    Widths();
    assert Pow256(5) == 256 * Pow256(4);
    assert Pow256(6) == 256 * Pow256(5);
  }

  lemma Masks(x: nat)
    ensures And(x, BITS_23) == x % TWO_23 && And(x, BITS_25) == x % TWO_25
  {
    AndMask(x, 23);
    AndMask(x, 25);
    FieldsAreDivMod(x, 23);
    FieldsAreDivMod(x, 25);
    Powers();
  }

  lemma Complement(mask: nat)
    requires mask < TWO_23
    ensures Xor(mask, BITS_23) == BITS_23 - mask
  {
    Powers();
    XorMask(mask, 23);
  }

  /** The three bit operations of the decoder, as arithmetic on the 48-bit value. */
  lemma PackedFields(val: nat)
    requires val < TWO_48
    ensures And(val, BITS_23) == val % TWO_23
    ensures And(val / TWO_23, BITS_25) == val / TWO_23 < TWO_25
    ensures Xor(And(val, BITS_23), BITS_23) == BITS_23 - val % TWO_23
  {
    hide And, Xor;
    Masks(val);
    Masks(val / TWO_23);
    Complement(val % TWO_23);
  }

  /** The source panics unless it is given exactly six bytes. */
  function DevAddrFilterFromBin(data: bytes): (f: DevAddrFilter)
    requires |data| == 6
    ensures f.base == FromBE(data) / TWO_23 < TWO_25
    ensures f.size == TWO_25 - 4 * (FromBE(data) % TWO_23)
  {
    SixBytes();
    var val := FromBE(data);
    PackedFields(val);
    DevAddrFilter(And(val / TWO_23, BITS_25), Xor(And(val, BITS_23), BITS_23) * 4 + 3 + 1)
  }

  /** The byte of most weight comes first. */
  lemma BigEndian(a: u8, b: u8, c: u8, d: u8, e: u8, f: u8)
    ensures FromBE([a, b, c, d, e, f])
         == 0x100_0000_0000 * a + 0x1_0000_0000 * b + 0x100_0000 * c + 0x1_0000 * d + 0x100 * e + f
  {
    assert [a, b, c, d, e, f][..5] == [a, b, c, d, e] && [a, b, c, d, e][..4] == [a, b, c, d];
    assert [a, b, c, d][..3] == [a, b, c] && [a, b, c][..2] == [a, b] && [a, b][..1] == [a];
    assert FromBE([a]) == a;
    assert FromBE([a, b]) == 0x100 * FromBE([a]) + b;
    assert FromBE([a, b, c]) == 0x100 * FromBE([a, b]) + c;
    assert FromBE([a, b, c, d]) == 0x100 * FromBE([a, b, c]) + d;
    assert FromBE([a, b, c, d, e]) == 0x100 * FromBE([a, b, c, d]) + e;
  }

  /** The filters that six bytes can describe. */
  ghost predicate Describable(f: DevAddrFilter) {
    f.base < TWO_25 && 4 <= f.size <= TWO_25 && f.size % 4 == 0
  }

  /** The six bytes that describe a filter. */
  function DevAddrFilterToBin(f: DevAddrFilter): bytes
    requires f.size <= TWO_25
  {
    ToBE(f.base * TWO_23 + (TWO_25 - f.size) / 4, 6)
  }

  /** Every six-byte string describes one filter and is the description of that filter. */
  lemma EncodeDecoded(data: bytes)
    requires |data| == 6
    ensures Describable(DevAddrFilterFromBin(data))
    ensures DevAddrFilterToBin(DevAddrFilterFromBin(data)) == data
  {
    hide ToBE, FromBE, DevAddrFilterFromBin;
    var val := FromBE(data);
    assert (TWO_25 - (TWO_25 - 4 * (val % TWO_23))) / 4 == val % TWO_23;
    ToBEFromBE(data);
  }

  /** Every describable filter is decoded from its description. */
  lemma DecodeEncoded(f: DevAddrFilter)
    requires Describable(f)
    ensures DevAddrFilterFromBin(DevAddrFilterToBin(f)) == f
  {
    hide ToBE, FromBE, DevAddrFilterFromBin;
    var mask := (TWO_25 - f.size) / 4;
    var val := f.base * TWO_23 + mask;
    assert val / TWO_23 == f.base && val % TWO_23 == mask;
    SixBytes();
    FromBEToBE(val, 6);
  }

  /** Membership, read off the packed bytes: only 23 address bits are compared, and nothing overflows. */
  lemma FilterMembership(data: bytes, devaddr: u32)
    requires |data| == 6
    ensures DevAddrFilterFromBin(data).Contains(devaddr) <==>
            var lo := FromBE(data) / TWO_23;
            lo <= devaddr % TWO_23 < lo + TWO_25 - 4 * (FromBE(data) % TWO_23)
    ensures var f := DevAddrFilterFromBin(data); f.base + f.size < TWO_32
  {
    hide And;
    Masks(devaddr);
  }

  /** A describable filter matches some address exactly when its base fits in the 23 bits compared. */
  lemma FilterNonEmpty(f: DevAddrFilter)
    requires Describable(f)
    ensures (exists devaddr: u32 :: f.Contains(devaddr)) <==> f.base < TWO_23
  {
    hide And;
    if f.base < TWO_23 {
      Masks(f.base);
      assert f.Contains(f.base);
    }
    forall devaddr: u32 | f.Contains(devaddr)
      ensures f.base < TWO_23
    {
      Masks(devaddr);
    }
  }

  // -------- The EUI filter --------

  datatype Eui = Eui(deveui: u64, appeui: u64) {
    /** The sixteen bytes that are hashed for the membership test. */
    function Key(): bytes {
      ToLE(deveui, 8) + ToLE(appeui, 8)
    }
  }

  datatype EuiFilter = EuiFilter(seed: u64, blockLength: u64, fingerprints: seq<u16>)

  /** The number of fingerprints read: the product is taken in 64 bits. */
  function FingerprintCount(blockLength: u64): nat {
    blockLength * 3 % TWO_64
  }

  /** Reads a header and then that many fingerprints; running out of input, a panic in the source, gives `None`. */
  method EuiFilterFromBin(data: bytes) returns (r: Option<EuiFilter>)
    ensures r.Some? <==> |data| >= 16 && |data| >= 16 + 2 * (3 * LE64(data[8..16]) % 0x1_0000_0000_0000_0000)
    ensures r.Some? ==>
            && r.value.seed == LE64(data[..8]) && r.value.blockLength == LE64(data[8..16])
            && |r.value.fingerprints| == 3 * r.value.blockLength % 0x1_0000_0000_0000_0000
            && (|r.value.fingerprints| == 3 * r.value.blockLength <==> r.value.blockLength <= TWO_64 / 3)
            && forall i | 0 <= i < |r.value.fingerprints| ::
                 r.value.fingerprints[i] == LE16(data[16 + 2 * i..18 + 2 * i])
  {
    if |data| < 16 {
      return None;
    }
    var seed, blockLength := LE64(data[..8]), LE64(data[8..16]);
    var buf := data[16..];
    var fingerprints: seq<u16> := [];
    for n := 0 to FingerprintCount(blockLength)
      invariant |fingerprints| == n && 16 + 2 * n <= |data| && buf == data[16 + 2 * n..]
      invariant forall i | 0 <= i < n :: fingerprints[i] == LE16(data[16 + 2 * i..18 + 2 * i])
    {
      if |buf| < 2 {
        return None;
      }
      assert buf[..2] == data[16 + 2 * n..18 + 2 * n];
      fingerprints := fingerprints + [LE16(buf[..2])];
      buf := buf[2..];
    }
    r := Some(EuiFilter(seed, blockLength, fingerprints));
  }
}
