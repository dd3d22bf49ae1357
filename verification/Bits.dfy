/**
  The bit operators of C on unsigned values, as functions on natural numbers, and the big-endian
  readers of src/util/binary.h.
 */
module Bits {
  type byte = x: int | 0 <= x < 0x100

  function Pow2(k: nat): (r: nat)
    ensures r >= 1
  {
    if k == 0 then 1 else 2 * Pow2(k - 1)
  }

  /** a | b, bit by bit. */
  function Or(a: nat, b: nat): nat
    decreases a + b
  {
    if a == 0 then b
    else if b == 0 then a
    else 2 * Or(a / 2, b / 2) + (if a % 2 == 1 || b % 2 == 1 then 1 else 0)
  }

  /** a & b, bit by bit. */
  function And(a: nat, b: nat): nat
    decreases a + b
  {
    if a == 0 || b == 0 then 0
    else 2 * And(a / 2, b / 2) + (if a % 2 == 1 && b % 2 == 1 then 1 else 0)
  }

  function Shl(a: nat, k: nat): nat {
    a * Pow2(k)
  }

  /** a >> k */
  function Shr(a: nat, k: nat): nat {
    if k == 0 then a else Shr(a / 2, k - 1)
  }

  /** The low k bits of a. */
  function Low(a: nat, k: nat): nat {
    if k == 0 then 0 else 2 * Low(a / 2, k - 1) + a % 2
  }

  lemma Pow2Values()
    ensures Pow2(2) == 4 && Pow2(3) == 8 && Pow2(4) == 16 && Pow2(5) == 32 && Pow2(6) == 64 && Pow2(8) == 0x100
    ensures Pow2(11) == 0x800 && Pow2(16) == 0x1_0000 && Pow2(24) == 0x100_0000 && Pow2(32) == 0x1_0000_0000
    ensures Pow2(62) == 0x4000_0000_0000_0000 && Pow2(63) == 0x8000_0000_0000_0000
  {
    assert Pow2(12) == 0x1000 && Pow2(20) == 0x10_0000 && Pow2(28) == 0x1000_0000;
    assert Pow2(36) == 0x10_0000_0000 && Pow2(44) == 0x1000_0000_0000;
    assert Pow2(52) == 0x10_0000_0000_0000 && Pow2(60) == 0x1000_0000_0000_0000;
  }

  /** Values with no bit in common: | is +. */
  lemma {:induction false} OrDisjoint(high: nat, low: nat, k: nat)
    requires low < Pow2(k)
    ensures Or(Shl(high, k), low) == high * Pow2(k) + low
    decreases k
  {
    if k > 0 && high > 0 && low > 0 {
      var half := Pow2(k - 1);
      Double(high, half);
      OrDisjoint(high, low / 2, k - 1);
    }
  }

  lemma OrStep(a: nat, b: nat)
    ensures Or(a, b) / 2 == Or(a / 2, b / 2) && (Or(a, b) % 2 == 1 <==> a % 2 == 1 || b % 2 == 1)
  {
  }

  lemma AndStep(a: nat, b: nat)
    ensures And(a, b) / 2 == And(a / 2, b / 2) && (And(a, b) % 2 == 1 <==> a % 2 == 1 && b % 2 == 1)
  {
  }

  /** Bit k of a | b. */
  lemma {:induction false} OrBit(a: nat, b: nat, k: nat)
    ensures Shr(Or(a, b), k) % 2 == 1 <==> Shr(a, k) % 2 == 1 || Shr(b, k) % 2 == 1
    decreases k
  {
    OrStep(a, b);
    if k > 0 {
      OrBit(a / 2, b / 2, k - 1);
    }
  }

  /** Bit k of a & b. */
  lemma {:induction false} AndBits(a: nat, b: nat, k: nat)
    ensures Shr(And(a, b), k) % 2 == 1 <==> Shr(a, k) % 2 == 1 && Shr(b, k) % 2 == 1
    decreases k
  {
    AndStep(a, b);
    if k > 0 {
      AndBits(a / 2, b / 2, k - 1);
    }
  }

  lemma Double(x: nat, h: nat)
    ensures x * (2 * h) == 2 * (x * h)
  {
  }

  lemma {:induction false} SplitAt(a: nat, k: nat)
    ensures a == Shr(a, k) * Pow2(k) + Low(a, k) && Low(a, k) < Pow2(k)
    decreases k
  {
    if k > 0 {
      SplitAt(a / 2, k - 1);
      Double(Shr(a, k), Pow2(k - 1));
    }
  }

  /** Masking with 2^k - 1 keeps the low k bits. */
  lemma {:induction false} AndMask(a: nat, k: nat)
    ensures And(a, Pow2(k) - 1) == Low(a, k)
    decreases k
  {
    if k > 0 {
      AndMask(a / 2, k - 1);
      if a == 0 {
        assert Low(0, k) == 0 by { SplitAt(0, k); }
      }
    }
  }

  /** The two parts of a value that is given by them. */
  lemma {:induction false} Unpack(x: nat, q: nat, r: nat, k: nat)
    requires x == q * Pow2(k) + r && r < Pow2(k)
    ensures And(x, Pow2(k) - 1) == Low(x, k) == r && Shr(x, k) == q
    decreases k
  {
    if k > 0 {
      Double(q, Pow2(k - 1));
      Unpack(x / 2, q, r / 2, k - 1);
    }
    AndMask(x, k);
  }

  /** Masking with 2^k is a test of bit k. */
  lemma {:induction false} AndBit(a: nat, k: nat)
    ensures And(a, Pow2(k)) == if Shr(a, k) % 2 == 1 then Pow2(k) else 0
    decreases k
  {
    if k > 0 {
      AndBit(a / 2, k - 1);
    }
  }

  // ----- big-endian words

  function Read32be(b: seq<byte>): nat
    requires |b| == 4
  {
    Or(Or(Or(Shl(b[0], 24), Shl(b[1], 16)), Shl(b[2], 8)), b[3])
  }

  function Read64be(b: seq<byte>): nat
    requires |b| == 8
  {
    Or(Shl(Read32be(b[..4]), 32), Read32be(b[4..]))
  }

  function Be32(n: nat): (b: seq<byte>)
    requires n < 0x1_0000_0000
    ensures |b| == 4
  {
    [n / 0x100 / 0x100 / 0x100, n / 0x100 / 0x100 % 0x100, n / 0x100 % 0x100, n % 0x100]
  }

  function Be64(n: nat): (b: seq<byte>)
    requires n < 0x1_0000_0000_0000_0000
    ensures |b| == 8
  {
    Be32(n / 0x1_0000_0000) + Be32(n % 0x1_0000_0000)
  }

  /** What a sequence of bytes means, the most significant first. */
  function BigEndian(b: seq<byte>): nat {
    if b == [] then 0 else 0x100 * BigEndian(b[..|b| - 1]) + b[|b| - 1]
  }

  lemma BigEndianStep(b: seq<byte>, k: nat)
    requires k < |b|
    ensures BigEndian(b[..k + 1]) == 0x100 * BigEndian(b[..k]) + b[k]
  {
    assert b[..k + 1][..k] == b[..k];
  }

  lemma BigEndianOf4(b: seq<byte>)
    requires |b| == 4
    ensures BigEndian(b) == 0x100_0000 * (b[0] as int) + 0x1_0000 * (b[1] as int) + 0x100 * (b[2] as int) + b[3]
  {
    BigEndianStep(b, 0);
    BigEndianStep(b, 1);
    BigEndianStep(b, 2);
    BigEndianStep(b, 3);
    assert b[..0] == [] && b[..4] == b;
  }

  lemma BigEndianOf8(b: seq<byte>)
    requires |b| == 8
    ensures BigEndian(b) == 0x1_0000_0000 * BigEndian(b[..4]) + BigEndian(b[4..])
  {
    BigEndianOf4(b[4..]);
    BigEndianStep(b, 4);
    BigEndianStep(b, 5);
    BigEndianStep(b, 6);
    BigEndianStep(b, 7);
    assert b[..8] == b;
  }

  lemma ShlBy(a: nat, k: nat, p: nat)
    requires p == Pow2(k)
    ensures Shl(a, k) == a * p
  {
  }

  lemma OrBy(high: nat, low: nat, k: nat, p: nat)
    requires p == Pow2(k) && low < p
    ensures Or(high * p, low) == high * p + low
  {
    OrDisjoint(high, low, k);
  }

  /** The shifted bytes do not overlap, so or-ing them is adding them. */
  lemma OrFour(b0: nat, b1: nat, b2: nat, b3: nat)
    requires b1 < 0x100 && b2 < 0x100 && b3 < 0x100
    ensures Or(Or(Or(Shl(b0, 24), Shl(b1, 16)), Shl(b2, 8)), b3) == 0x100_0000 * b0 + 0x1_0000 * b1 + 0x100 * b2 + b3
  {
    Pow2Values();
    ShlBy(b0, 24, 0x100_0000);
    ShlBy(b1, 16, 0x1_0000);
    ShlBy(b2, 8, 0x100);
    OrBy(b0, b1 * 0x1_0000, 24, 0x100_0000);
    OrBy(b0 * 0x100 + b1, b2 * 0x100, 16, 0x1_0000);
    OrBy(b0 * 0x1_0000 + b1 * 0x100 + b2, b3, 8, 0x100);
  }

  lemma Read32beIsBigEndian(b: seq<byte>)
    requires |b| == 4
    ensures Read32be(b) == BigEndian(b) < 0x1_0000_0000
  {
    BigEndianOf4(b);
    OrFour(b[0], b[1], b[2], b[3]);
  }

  lemma Read64beIsBigEndian(b: seq<byte>)
    requires |b| == 8
    ensures Read64be(b) == BigEndian(b) < 0x1_0000_0000_0000_0000
  {
    BigEndianOf8(b);
    Read32beIsBigEndian(b[..4]);
    Read32beIsBigEndian(b[4..]);
    Pow2Values();
    OrDisjoint(Read32be(b[..4]), Read32be(b[4..]), 32);
  }

  lemma BigEndianUndoesBe32(n: nat)
    requires n < 0x1_0000_0000
    ensures BigEndian(Be32(n)) == n
  {
    BigEndianOf4(Be32(n));
  }

  lemma BigEndianUndoesBe64(n: nat)
    requires n < 0x1_0000_0000_0000_0000
    ensures BigEndian(Be64(n)) == n
  {
    var high, low := n / 0x1_0000_0000, n % 0x1_0000_0000;
    assert Be64(n)[..4] == Be32(high) && Be64(n)[4..] == Be32(low);
    BigEndianOf8(Be64(n));
    BigEndianUndoesBe32(high);
    BigEndianUndoesBe32(low);
  }
}
