/**
 * 64-bit square sets. Bit i of a bitboard stands for square i
 * (a1 = 0, b1 = 1, ..., h8 = 63), as in the engine.
 * The operations used by the engine are `1 << n`, `trailing_zeros`,
 * `count_ones` and the `b & (b - 1)` idiom that clears the lowest bit.
 */
module Bits {
  /** `1u64 << i`. */
  function Bit(i: nat): bv64
    requires i < 64
  {
    (1 as bv64) << i
  }

  /** Exactly one bit is set (a single square). */
  predicate IsSingle(s: bv64)
  {
    s != 0 && s & (s - 1) == 0
  }

  /** Square i is a member of b. */
  predicate Has(b: bv64, i: nat)
    requires i < 64
  {
    b & Bit(i) != 0
  }

  /** The lowest set bit of b, isolated (0 when b is 0). */
  function Lowest(b: bv64): bv64
  {
    b & (!b + 1)
  }

  /** Index of the highest set bit, by binary search; the exact index for a single bit. */
  function Log2(s: bv64): nat
  {
    (if s & 0xFFFF_FFFF_0000_0000 != 0 then 32 else 0) +
    (if s & 0xFFFF_0000_FFFF_0000 != 0 then 16 else 0) +
    (if s & 0xFF00_FF00_FF00_FF00 != 0 then 8 else 0) +
    (if s & 0xF0F0_F0F0_F0F0_F0F0 != 0 then 4 else 0) +
    (if s & 0xCCCC_CCCC_CCCC_CCCC != 0 then 2 else 0) +
    (if s & 0xAAAA_AAAA_AAAA_AAAA != 0 then 1 else 0)
  }

  /** `u64::trailing_zeros`: the index of the lowest set bit, or 64 for the empty set. */
  function TrailingZeros(b: bv64): (t: nat)
    ensures t <= 64
    ensures b == 0 <==> t == 64
  {
    if b == 0 then 64 else Log2(Lowest(b))
  }

  /** `u64::count_ones`, by clearing the lowest bit until nothing is left. */
  function PopCount(b: bv64): nat
    decreases b
  {
    if b == 0 then 0 else 1 + PopCount(b & (b - 1))
  }

  lemma BitSingle(i: nat)
    requires i < 64
    ensures IsSingle(Bit(i))
  {}

  /** The same square, with the shift amount as a bit-vector. */
  lemma BitShift(i: nat)
    requires i < 64
    ensures (i as bv64) < 64
    ensures Bit(i) == (1 as bv64) << (i as bv64)
  {}

  /** `Log2` recovers the index of a square's bit; shown one rank at a time. */
  lemma LogBit(i: nat)
    requires i < 64
    ensures Log2(Bit(i)) == i
  {
    if i < 8 {
      LogBitRank0(i);
    } else if i < 16 {
      LogBitRank1(i);
    } else if i < 24 {
      LogBitRank2(i);
    } else if i < 32 {
      LogBitRank3(i);
    } else if i < 40 {
      LogBitRank4(i);
    } else if i < 48 {
      LogBitRank5(i);
    } else if i < 56 {
      LogBitRank6(i);
    } else {
      LogBitRank7(i);
    }
  }

  lemma LogBitRank0(i: nat)
    requires 0 <= i < 8
    ensures Log2(Bit(i)) == i
  {}

  lemma LogBitRank1(i: nat)
    requires 8 <= i < 16
    ensures Log2(Bit(i)) == i
  {}

  lemma LogBitRank2(i: nat)
    requires 16 <= i < 24
    ensures Log2(Bit(i)) == i
  {}

  lemma LogBitRank3(i: nat)
    requires 24 <= i < 32
    ensures Log2(Bit(i)) == i
  {}

  lemma LogBitRank4(i: nat)
    requires 32 <= i < 40
    ensures Log2(Bit(i)) == i
  {}

  lemma LogBitRank5(i: nat)
    requires 40 <= i < 48
    ensures Log2(Bit(i)) == i
  {}

  lemma LogBitRank6(i: nat)
    requires 48 <= i < 56
    ensures Log2(Bit(i)) == i
  {}

  lemma LogBitRank7(i: nat)
    requires 56 <= i < 64
    ensures Log2(Bit(i)) == i
  {}


  lemma SingleIsBit(s: bv64)
    requires IsSingle(s)
    ensures Log2(s) < 64 && Bit(Log2(s)) == s
  {}

  lemma LowestSingle(b: bv64)
    requires b != 0
    ensures IsSingle(Lowest(b))
  {}

  lemma LowestIn(b: bv64)
    ensures b & Lowest(b) == Lowest(b)
  {}

  lemma ClearLowest(b: bv64)
    ensures b & (b - 1) == b & !Lowest(b)
  {}

  /** `b ^= 1 << trailing_zeros(b)` clears the lowest bit, as `b &= b - 1` does. */
  lemma PeelLowest(b: bv64)
    ensures b ^ Lowest(b) == b & (b - 1)
  {}

  lemma BelowLowestEmpty(b: bv64)
    ensures b & (Lowest(b) - 1) == 0
  {}

  lemma SingleLowest(s: bv64)
    requires IsSingle(s)
    ensures Lowest(s) == s
  {}

  lemma SinglesDisjoint(s: bv64, t: bv64)
    requires IsSingle(s) && IsSingle(t) && s != t
    ensures s & t == 0
  {}

  /** `1 << trailing_zeros(b)` isolates the lowest set bit of a non-empty b. */
  lemma TrailingZerosBit(b: bv64)
    requires b != 0
    ensures TrailingZeros(b) < 64
    ensures Bit(TrailingZeros(b)) == Lowest(b)
    ensures Has(b, TrailingZeros(b))
  {
    LowestSingle(b);
    SingleIsBit(Lowest(b));
    LowestIn(b);
  }

  /** The trailing-zero count of a single square is its index. */
  lemma TrailingZerosSingle(s: bv64)
    requires IsSingle(s)
    ensures TrailingZeros(s) < 64 && Bit(TrailingZeros(s)) == s
  {
    SingleLowest(s);
    SingleIsBit(s);
  }

  lemma TrailingZerosOfBit(i: nat)
    requires i < 64
    ensures TrailingZeros(Bit(i)) == i
  {
    BitSingle(i);
    SingleLowest(Bit(i));
    LogBit(i);
  }

  /** Distinct indices give disjoint bits. */
  lemma BitsDisjoint(i: nat, j: nat)
    requires i < 64 && j < 64 && i != j
    ensures Bit(i) & Bit(j) == 0
  {
    BitSingle(i);
    BitSingle(j);
    LogBit(i);
    LogBit(j);
    SinglesDisjoint(Bit(i), Bit(j));
  }

  // ---- Membership of one square ----

  lemma AndOrDistrib(a: bv64, b: bv64, s: bv64)
    ensures (a | b) & s == (a & s) | (b & s)
  {
  }

  lemma OrZero(a: bv64, b: bv64)
    ensures (a | b == 0) == (a == 0 && b == 0)
  {
  }

  /** Square i is in the one-square set of square j exactly when i == j. */
  lemma HasBit(j: nat, i: nat)
    requires i < 64 && j < 64
    ensures Has(Bit(j), i) <==> i == j
  {
    BitSingle(i);
    if i != j {
      BitsDisjoint(i, j);
    }
  }

  // ---- Subsets ----

  /** Every square of a is in b. */
  predicate Within(a: bv64, b: bv64)
  {
    a & !b == 0
  }

  /** No square is in both a and b. */
  predicate Disjoint(a: bv64, b: bv64)
  {
    a & b == 0
  }

  lemma WithinTrans(a: bv64, b: bv64, c: bv64)
    requires Within(a, b) && Within(b, c)
    ensures Within(a, c)
  {}

  lemma WithinDisjoint(a: bv64, b: bv64, c: bv64)
    requires Within(a, b) && Disjoint(b, c)
    ensures Disjoint(a, c)
  {}

  lemma UnionWithin(a: bv64, b: bv64, c: bv64)
    requires Within(a, c) && Within(b, c)
    ensures Within(a | b, c)
  {}

  lemma UnionDisjoint(a: bv64, b: bv64, c: bv64)
    requires Disjoint(a, c) && Disjoint(b, c)
    ensures Disjoint(a | b, c)
  {}

  lemma DisjointSym(a: bv64, b: bv64)
    requires Disjoint(a, b)
    ensures Disjoint(b, a)
  {}

  lemma EmptyWithin(b: bv64)
    ensures Within(0, b) && Disjoint(0, b) && Within(b, b)
  {}

  /** The lowest square is in the set and not in what is left once it is cleared. */
  lemma LowestSplit(p: bv64)
    ensures Within(p & (p - 1), p)
    ensures Within(Lowest(p), p)
    ensures Disjoint(Lowest(p), p & (p - 1))
  {}

  lemma LowestNonEmpty(p: bv64)
    requires p != 0
    ensures Lowest(p) != 0
  {}

  /** A nonempty set is never both within and disjoint from another. */
  lemma WithinNotDisjoint(a: bv64, b: bv64)
    requires a != 0 && Within(a, b)
    ensures !Disjoint(a, b)
  {}

  lemma DisjointWithin(a: bv64, b: bv64, c: bv64)
    requires Disjoint(a, b) && Within(c, b)
    ensures Disjoint(a, c) && Disjoint(c, a)
  {}

  lemma UnionSides(a: bv64, b: bv64)
    ensures Within(a, a | b) && Within(b, a | b)
  {}

  /** A set that misses `sq` can join before or after `sq` is taken out and `add` put in. */
  lemma JoinAfterMove(x: bv64, others: bv64, sq: bv64, add: bv64)
    requires Disjoint(others, sq)
    ensures ((x & !sq) | add) | others == ((x | others) & !sq) | add
  {}

  lemma JoinBeforeMove(x: bv64, others: bv64, sq: bv64, add: bv64)
    requires Disjoint(x, sq)
    ensures x | ((others & !sq) | add) == ((x | others) & !sq) | add
  {}
}
