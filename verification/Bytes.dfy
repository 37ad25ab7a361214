/** Byte strings, little-endian fields, and the byte reader and writer that the frame code works on. */
module Bytes {
  import opened Bits
  import opened Wrappers

  type bytes = seq<u8>

  /** 256 to the power `n`. */
  function Pow256(n: nat): (p: nat)
    ensures p > 0
  {
    if n == 0 then 1 else 256 * Pow256(n - 1)
  }

  function FromLE(b: bytes): (x: nat)
    ensures x < Pow256(|b|)
  {
    if b == [] then 0 else b[0] + 256 * FromLE(b[1..])
  }

  function ToLE(x: nat, n: nat): (b: bytes)
    ensures |b| == n
  {
    if n == 0 then [] else [x % 256] + ToLE(x / 256, n - 1)
  }

  /** Writing a read field gives the same bytes. */
  lemma {:induction false} ToLEFromLE(b: bytes)
    ensures ToLE(FromLE(b), |b|) == b
  {
    if b == [] {
    } else {
      var hi := FromLE(b[1..]);
      ToLEFromLE(b[1..]);
      assert FromLE(b) % 256 == b[0] && FromLE(b) / 256 == hi;
    }
  }

  /** Reading a written field gives the same number, if it fits. */
  lemma {:induction false} FromLEToLE(x: nat, n: nat)
    requires x < Pow256(n)
    ensures FromLE(ToLE(x, n)) == x
  {
    if n == 0 {
    } else {
      FromLEToLE(x / 256, n - 1);
      assert ToLE(x, n)[1..] == ToLE(x / 256, n - 1);
    }
  }

  lemma Widths()
    ensures Pow256(1) == 256 && Pow256(2) == 65536 && Pow256(4) == TWO_32 && Pow256(8) == TWO_64
  {
    assert Pow256(3) == 256 * Pow256(2) && Pow256(5) == 256 * Pow256(4);
    assert Pow256(6) == 256 * Pow256(5) && Pow256(7) == 256 * Pow256(6);
  }

  function LE16(b: bytes): u16
    requires |b| == 2
  {
    Widths();
    FromLE(b)
  }

  function LE32(b: bytes): u32
    requires |b| == 4
  {
    Widths();
    FromLE(b)
  }

  function LE64(b: bytes): u64
    requires |b| == 8
  {
    Widths();
    FromLE(b)
  }

  /** A slice of a slice is a slice. */
  lemma SliceOfSlice(b: bytes, i: nat, j: nat, x: nat, y: nat)
    requires i <= j <= |b| && x <= y <= j - i
    ensures b[i..j][x..y] == b[i + x..i + y]
  {
    var d := b[i..j];
    assert forall k | 0 <= k < y - x :: d[x..y][k] == d[x + k] == b[i + x + k];
  }

  /** The only way a read fails: the input ends too early. */
  datatype IoError = UnexpectedEof

  /** A reader over an in-memory slice. */
  class Reader {
    var rest: bytes

    constructor (data: bytes)
      ensures rest == data
    {
      rest := data;
    }

    method ReadExact(n: nat) returns (r: Result<bytes, IoError>)
      modifies this
      ensures r.Ok? <==> n <= |old(rest)|
      ensures r.Ok? ==> r.value == old(rest)[..n] && rest == old(rest)[n..]
    {
      if |rest| < n {
        return Err(UnexpectedEof);
      }
      r := Ok(rest[..n]);
      rest := rest[n..];
    }

    method ReadToEnd() returns (data: bytes)
      modifies this
      ensures data == old(rest) && rest == []
    {
      data := rest;
      rest := [];
    }
  }

  /** A growing output buffer. */
  class Sink {
    var written: bytes

    constructor ()
      ensures written == []
    {
      written := [];
    }

    method Write(data: bytes) returns (count: nat)
      modifies this
      ensures written == old(written) + data && count == |data|
    {
      written := written + data;
      count := |data|;
    }
  }

  // -------- The order of the bytes --------

  /** The byte of least weight comes first. */
  lemma LittleEndian(a: u8, b: u8, c: u8, d: u8)
    ensures LE16([a, b]) == a + 0x100 * b
    ensures LE32([a, b, c, d]) == a + 0x100 * b + 0x1_0000 * c + 0x100_0000 * d
  {
    assert FromLE([d]) == d && [c, d][1..] == [d];
    assert FromLE([c, d]) == c + 0x100 * d && [b, c, d][1..] == [c, d];
    assert FromLE([b, c, d]) == b + 0x100 * FromLE([c, d]) && [a, b, c, d][1..] == [b, c, d];
    assert FromLE([b]) == b && [a, b][1..] == [b];
  }

  /** Eight bytes are four of low and four of high weight. */
  lemma LittleEndian64(x: bytes)
    requires |x| == 8
    ensures LE64(x) == LE32(x[..4]) + 0x1_0000_0000 * LE32(x[4..])
  {
    LittleEndian(x[0], x[1], x[2], x[3]);
    assert x[..4] == [x[0], x[1], x[2], x[3]];
    assert x[1..][1..] == x[2..] && x[2..][1..] == x[3..] && x[3..][1..] == x[4..];
    var high := FromLE(x[4..]);
    assert FromLE(x[3..]) == x[3] + 0x100 * high;
    assert FromLE(x[2..]) == x[2] + 0x100 * FromLE(x[3..]);
    assert FromLE(x[1..]) == x[1] + 0x100 * FromLE(x[2..]);
  }
}
