/**
  Unsigned machine words as naturals. Shifts, masks and bitwise operators are defined one bit at a
  time, and the lemmas below reduce them to addition of disjoint fields.
 */
module Bits {

  const TWO_32 := 0x1_0000_0000
  const TWO_64 := 0x1_0000_0000_0000_0000

  type u8 = x: int | 0 <= x < 256
  type u16 = x: int | 0 <= x < 65536
  type u32 = x: int | 0 <= x < TWO_32
  type u64 = x: int | 0 <= x < TWO_64

  /** `x << k` without a width limit. */
  function Scale(x: nat, k: nat): (r: nat)
    ensures r >= x
  {
    if k == 0 then x else 2 * Scale(x, k - 1)
  }

  function Pow2(k: nat): (p: nat)
    ensures p > 0
  {
    Scale(1, k)
  }

  /** `x >> k`. */
  function Shr(x: nat, k: nat): (r: nat)
    ensures r <= x
  {
    if k == 0 then x else Shr(x / 2, k - 1)
  }

  /** The low `k` bits of `x`. */
  function Low(x: nat, k: nat): (r: nat)
    ensures r <= x
  {
    if k == 0 then 0 else 2 * Low(x / 2, k - 1) + x % 2
  }

  /** The value a 32-bit register keeps of `x`. */
  function Wrap32(x: int): u32 {
    if 0 <= x < TWO_32 then x else x % TWO_32
  }

  /** `x << k` on 32 bits: the bits shifted past the top are lost. */
  function Shl32(x: nat, k: nat): u32 {
    Wrap32(Scale(x, k))
  }

  function And(a: nat, b: nat): nat {
    if a == 0 || b == 0 then 0 else 2 * And(a / 2, b / 2) + (if a % 2 == 1 && b % 2 == 1 then 1 else 0)
  }

  function Or(a: nat, b: nat): nat
    decreases a + b
  {
    if a == 0 && b == 0 then 0 else 2 * Or(a / 2, b / 2) + (if a % 2 == 1 || b % 2 == 1 then 1 else 0)
  }

  function Xor(a: nat, b: nat): nat
    decreases a + b
  {
    if a == 0 && b == 0 then 0 else 2 * Xor(a / 2, b / 2) + (if a % 2 != b % 2 then 1 else 0)
  }

  /** `a | b` on 32 bits. */
  function Or32(a: u32, b: u32): u32 {
    Power32();
    OrBound(a, b, 32);
    Or(a, b)
  }

  // -------- Fields --------

  /** A number is its high bits followed by its low bits. */
  lemma {:induction false} SplitFields(x: nat, k: nat)
    ensures x == Scale(Shr(x, k), k) + Low(x, k)
    ensures Low(x, k) < Pow2(k)
  {
    if k == 0 {
    } else {
      SplitFields(x / 2, k - 1);
    }
  }

  /** Two adjacent fields can be read back. */
  lemma {:induction false} JoinFields(hi: nat, lo: nat, k: nat)
    requires lo < Pow2(k)
    ensures Shr(Scale(hi, k) + lo, k) == hi
    ensures Low(Scale(hi, k) + lo, k) == lo
  {
    if k == 0 {
    } else {
      JoinFields(hi, lo / 2, k - 1);
    }
  }

  lemma {:induction false} ScaleAdd(x: nat, y: nat, k: nat)
    ensures Scale(x + y, k) == Scale(x, k) + Scale(y, k)
  {
    if k == 0 {
    } else {
      ScaleAdd(x, y, k - 1);
    }
  }

  lemma {:induction false} ScaleStep(x: nat, y: nat, k: nat)
    requires x < y
    ensures Scale(x, k) + Pow2(k) <= Scale(y, k)
  {
    if k == 0 {
    } else {
      ScaleStep(x, y, k - 1);
    }
  }

  lemma {:induction false} ScaleScale(x: nat, j: nat, k: nat)
    ensures Scale(Scale(x, j), k) == Scale(x, j + k)
  {
    if k == 0 {
    } else {
      ScaleScale(x, j, k - 1);
    }
  }

  lemma {:induction false} ShrScale(x: nat, j: nat, k: nat)
    ensures Shr(Scale(x, j), j + k) == Shr(x, k)
  {
    if j == 0 {
    } else {
      ShrScale(x, j - 1, k);
    }
  }

  lemma {:induction false} ShrShr(x: nat, j: nat, k: nat)
    ensures Shr(Shr(x, j), k) == Shr(x, j + k)
  {
    if j == 0 {
    } else {
      ShrShr(x / 2, j - 1, k);
    }
  }

  /** Shifting ones out leaves ones. */
  lemma {:induction false} ShrOnes(n: nat, k: nat)
    requires k <= n
    ensures Shr(Pow2(n) - 1, k) == Pow2(n - k) - 1
  {
    if k == 0 {
    } else {
      ShrOnes(n - 1, k - 1);
    }
  }

  lemma OnesAreOdd(n: nat)
    requires n > 0
    ensures (Pow2(n) - 1) % 2 == 1
  {
  }

  /** In `c` ones followed by a zero only the last bit is clear. */
  lemma OnesThenZero(c: nat, k: nat)
    requires k <= c
    ensures Shr(2 * (Pow2(c) - 1), k) % 2 == 0 <==> k == 0
  {
    if k > 0 {
      ShrOnes(c, k - 1);
      OnesAreOdd(c - (k - 1));
    }
  }

  lemma LowOfSum(hi: nat, x: nat, k: nat)
    ensures Low(Scale(hi, k) + x, k) == Low(x, k)
  {
    SplitFields(x, k);
    ScaleAdd(hi, Shr(x, k), k);
    JoinFields(hi + Shr(x, k), Low(x, k), k);
  }

  lemma {:induction false} ScaleZero(k: nat)
    ensures Scale(0, k) == 0
  {
    if k == 0 {
    } else {
      ScaleZero(k - 1);
    }
  }

  /** A 32-bit shift loses the multiples of `2^32`. */
  lemma WrapAround(m: nat, x: nat)
    requires x < TWO_32
    ensures Wrap32(m * TWO_32 + x) == x
  {
  }

  lemma WrapAdd(a: nat, b: nat)
    ensures Wrap32(Wrap32(a) + b) == Wrap32(a + b)
  {
  }

  // -------- Bitwise operators on fields --------

  /** Masking with `2^k - 1` keeps the low `k` bits. */
  lemma {:induction false} AndMask(x: nat, k: nat)
    ensures And(x, Pow2(k) - 1) == Low(x, k)
  {
    if k == 0 {
    } else {
      AndMask(x / 2, k - 1);
    }
    if x == 0 {
      LowZero(k);
    }
  }

  lemma {:induction false} LowZero(k: nat)
    ensures Low(0, k) == 0
  {
    if k == 0 {
    } else {
      LowZero(k - 1);
    }
  }

  /** Masking with a single bit is zero exactly when that bit is clear. */
  lemma {:induction false} AndBit(x: nat, k: nat)
    ensures And(x, Pow2(k)) == 0 <==> Shr(x, k) % 2 == 0
  {
    if k == 0 {
    } else {
      AndBit(x / 2, k - 1);
    }
  }

  /** Or-ing a field into `k` clear low bits is adding it. */
  lemma {:induction false} OrFields(hi: nat, lo: nat, k: nat)
    requires lo < Pow2(k)
    ensures Or(Scale(hi, k), lo) == Scale(hi, k) + lo
  {
    if k == 0 {
      OrZero(hi);
    } else {
      OrFields(hi, lo / 2, k - 1);
    }
  }

  lemma {:induction false} OrZero(x: nat)
    ensures Or(x, 0) == x
  {
    if x == 0 {
    } else {
      OrZero(x / 2);
    }
  }

  lemma ZeroOr(x: nat)
    ensures Or(0, x) == x
  {
    OrZero(x);
    OrSym(0, x);
  }

  lemma {:induction false} OrSym(a: nat, b: nat)
    ensures Or(a, b) == Or(b, a)
    decreases a + b
  {
    if a == 0 && b == 0 {
    } else {
      OrSym(a / 2, b / 2);
    }
  }

  lemma OrFieldsBelow(hi: nat, lo: nat, k: nat)
    requires lo < Pow2(k)
    ensures Or(lo, Scale(hi, k)) == Scale(hi, k) + lo
  {
    OrFields(hi, lo, k);
    OrSym(lo, Scale(hi, k));
  }

  lemma {:induction false} OrBound(a: nat, b: nat, k: nat)
    requires a < Pow2(k) && b < Pow2(k)
    ensures Or(a, b) < Pow2(k)
  {
    if k == 0 {
    } else {
      OrBound(a / 2, b / 2, k - 1);
    }
  }

  /** Exclusive-or with an all-ones mask is subtraction from it. */
  lemma {:induction false} XorMask(x: nat, k: nat)
    requires x < Pow2(k)
    ensures Xor(x, Pow2(k) - 1) == Pow2(k) - 1 - x
  {
    if k == 0 {
    } else {
      XorMask(x / 2, k - 1);
    }
  }

  /** Shifting left, then or-ing into the cleared bits, when nothing is shifted out. */
  lemma ShlOr(x: nat, lo: u32, k: nat)
    requires lo < Pow2(k) && Scale(x, k) < TWO_32
    ensures Or32(Shl32(x, k), lo) == Scale(x, k) + lo
  {
    assert Shl32(x, k) == Scale(x, k);
    OrFields(x, lo, k);
  }

  lemma FieldBound(id: nat, addr: nat, idLen: nat, addrLen: nat)
    requires id < Pow2(idLen) && addr < Pow2(addrLen)
    ensures Scale(id, addrLen) + addr < Pow2(idLen + addrLen)
  {
    ScaleScale(1, idLen, addrLen);
    ScaleStep(id, Pow2(idLen), addrLen);
  }

  /** Two shifts and two ors lay a prefix, an id and an address side by side. */
  lemma PackFields(prefix: nat, id: u32, addr: u32, idLen: nat, addrLen: nat)
    requires id < Pow2(idLen) && addr < Pow2(addrLen)
    requires Scale(prefix, idLen + addrLen) + Pow2(idLen + addrLen) <= TWO_32
    ensures Or32(Shl32(Or32(Shl32(prefix, idLen), id), addrLen), addr)
         == Scale(prefix, idLen + addrLen) + Scale(id, addrLen) + addr
  {
    var p := Scale(prefix, idLen);
    FieldBound(id, addr, idLen, addrLen);
    ScaleScale(prefix, idLen, addrLen);
    ScaleAdd(p, id, addrLen);
    ShlOr(prefix, id, idLen);
    ShlOr(p + id, addr, addrLen);
  }

  // -------- Values --------

  /** Shifts by the widths that occur in the address formats, as plain arithmetic. */
  lemma Powers()
    ensures Pow2(0) == 1 && Pow2(1) == 2 && Pow2(2) == 4 && Pow2(3) == 8 && Pow2(4) == 16
    ensures Pow2(5) == 32 && Pow2(6) == 64 && Pow2(7) == 128 && Pow2(8) == 256 && Pow2(9) == 512
    ensures Pow2(10) == 1024 && Pow2(11) == 2048 && Pow2(12) == 4096 && Pow2(13) == 8192
    ensures Pow2(14) == 16384 && Pow2(15) == 32768 && Pow2(16) == 65536 && Pow2(17) == 131072
    ensures Pow2(18) == 262144 && Pow2(19) == 524288 && Pow2(20) == 1048576 && Pow2(21) == 2097152
    ensures Pow2(22) == 4194304 && Pow2(23) == 8388608 && Pow2(24) == 16777216 && Pow2(25) == 33554432
  {
  }

  lemma Power32()
    ensures Pow2(26) == 0x400_0000 && Pow2(27) == 0x800_0000 && Pow2(28) == 0x1000_0000
    ensures Pow2(29) == 0x2000_0000 && Pow2(30) == 0x4000_0000 && Pow2(31) == 0x8000_0000
    ensures Pow2(32) == TWO_32
  {
    Powers();
  }

  lemma {:induction false} ScaleIsProduct(x: nat, k: nat)
    ensures Scale(x, k) == x * Pow2(k)
  {
    if k == 0 {
    } else {
      ScaleIsProduct(x, k - 1);
    }
  }

  lemma MulStep(m: nat, a: nat, b: nat)
    ensures a < b ==> m * a + m <= m * b
  {
    if a < b {
      var d: nat := b - a - 1;
      assert m * b == m * (a + 1 + d) == m * a + m + m * d;
    }
  }

  lemma DivModUnique(x: nat, m: nat, q: nat, r: nat)
    requires m > 0 && x == m * q + r && r < m
    ensures x / m == q && x % m == r
  {
    MulStep(m, x / m, q);
    MulStep(m, q, x / m);
  }

  /** High and low bits are quotient and remainder. */
  lemma FieldsAreDivMod(x: nat, k: nat)
    ensures Shr(x, k) == x / Pow2(k) && Low(x, k) == x % Pow2(k)
  {
    SplitFields(x, k);
    ScaleIsProduct(Shr(x, k), k);
    DivModUnique(x, Pow2(k), Shr(x, k), Low(x, k));
  }
}
