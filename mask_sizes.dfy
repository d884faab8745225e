/**
 * The relevant-bit constants of src/movegen/magic.rs are the sizes of the masks:
 * `ROOK_RELEVANT_BITS[sq]` squares in `mask_rook_attacks(sq)` and
 * `BISHOP_RELEVANT_BITS[sq]` in `mask_bishop_attacks(sq)`. `init` stores
 * `1 << count_ones(mask)` subsets of a mask, and the lookups keep the top
 * `RELEVANT_BITS` bits of the magic product, so the two widths agree.
 *
 * The count is taken walk by walk: the mask walk from a square visits `Span`
 * squares, each one new, and the four walks of a mask head in four different
 * directions from the piece, so no square is counted twice.
 */
module MaskSizes {
  import opened Bits
  import opened Tables
  import opened Magic
  import Evaluation

  // ---- Counting a set one square at a time ----

  /** The squares of `a` and of `b`; the proofs below keep it hidden so that unions stay terms. */
  function Union(a: bv64, b: bv64): bv64
  {
    a | b
  }

  lemma UnionAssoc(a: bv64, b: bv64, c: bv64)
    ensures Union(a, Union(b, c)) == Union(Union(a, b), c)
  {
    assert a | (b | c) == (a | b) | c;
  }

  lemma UnionZero(x: bv64)
    ensures Union(0, x) == x
  {}

  /** A square is in a union exactly when it is in one of the parts. */
  lemma HasUnion(a: bv64, b: bv64, i: nat)
    requires i < 64
    ensures Has(Union(a, b), i) <==> Has(a, i) || Has(b, i)
  {
    AndOrDistrib(a, b, Bit(i));
    OrZero(a & Bit(i), b & Bit(i));
  }

  /** Adding a square that is not in the set yet adds one to its pop count. */
  lemma AddSquare(x: bv64, i: nat)
    requires i < 64 && !Has(x, i)
    ensures PopCount(Union(x, Bit(i))) == PopCount(x) + 1
  {
    var tx := Evaluation.Terms(x, Evaluation.Ones());
    hide Union, Bit, Has, PopCount, Evaluation.Total, Evaluation.Terms;
    AddSquareTerms(x, i);
    Evaluation.TotalUpdate(tx, i, 1);
    Evaluation.PopCountSquares(x);
    Evaluation.PopCountSquares(Union(x, Bit(i)));
  }

  /** The count terms of the enlarged set: those of the set, with a one at the new square. */
  lemma AddSquareTerms(x: bv64, i: nat)
    requires i < 64 && !Has(x, i)
    ensures Evaluation.Terms(Union(x, Bit(i)), Evaluation.Ones())
         == Evaluation.Terms(x, Evaluation.Ones())[i := 1]
  {
    hide Union, Bit, Has;
    forall j | 0 <= j < 64
      ensures Has(Union(x, Bit(i)), j) <==> j == i || Has(x, j)
    {
      UnionSquare(x, i, j);
    }
  }

  /** The squares of a set with one square added. */
  lemma UnionSquare(x: bv64, i: nat, j: nat)
    requires i < 64 && j < 64
    ensures Has(Union(x, Bit(i)), j) <==> j == i || Has(x, j)
  {
    HasUnion(x, Bit(i), j);
    HasBit(i, j);
  }

  // ---- The length of a mask walk ----

  /** Steps along one coordinate before a walk in direction d reaches the edge; 8 when the coordinate does not move. */
  function Room(x: int, d: int): int
  {
    if d > 0 then 7 - x else if d < 0 then x else 8
  }

  /** The number of squares the mask walk from (r, f) in direction (dr, df) visits. */
  function Span(r: int, f: int, dr: int, df: int): nat
  {
    if !OnBoard(r, f) then 0
    else if Room(r, dr) <= Room(f, df) then Room(r, dr) else Room(f, df)
  }

  /** An inner square adds one to the walk from the next square; the walk from any other square is empty. */
  lemma SpanStep(r: int, f: int, dr: int, df: int)
    requires Direction(dr, df)
    ensures Inner(r, f, dr, df) ==> Span(r, f, dr, df) == Span(r + dr, f + df, dr, df) + 1
    ensures !Inner(r, f, dr, df) ==> Span(r, f, dr, df) == 0
  {}

  /** No square of `acc` lies on the walk from (r, f) in direction (dr, df). */
  predicate OffWalk(acc: bv64, r: int, f: int, dr: int, df: int)
  {
    forall i :: 0 <= i < 64 && Has(acc, i) ==> !Aligned(r, f, dr, df, i / 8, i % 8)
  }

  /** What lies on the walk from the next square lies on the walk from this one, and this square does not. */
  lemma AlignedFromNext(r: int, f: int, dr: int, df: int, x: int, y: int)
    requires Direction(dr, df)
    ensures Aligned(r + dr, f + df, dr, df, x, y) ==> Aligned(r, f, dr, df, x, y)
    ensures !Aligned(r + dr, f + df, dr, df, r, f)
  {}

  lemma SquareCoordinates(r: int, f: int)
    requires OnBoard(r, f)
    ensures 8 * r + f < 64 && (8 * r + f) / 8 == r && (8 * r + f) % 8 == f
  {}

  /** Taking a square of the walk into `acc` keeps `acc` off the rest of the walk. */
  lemma OffWalkStep(acc: bv64, r: int, f: int, dr: int, df: int)
    requires Direction(dr, df) && OnBoard(r, f) && OffWalk(acc, r, f, dr, df)
    ensures 8 * r + f < 64 && !Has(acc, 8 * r + f)
    ensures OffWalk(Union(acc, Bit(8 * r + f)), r + dr, f + df, dr, df)
  {
    var sq := 8 * r + f;
    SquareCoordinates(r, f);
    RayStart(r, f, dr, df);
    hide Bit, Has, Aligned, Union;
    forall i | 0 <= i < 64 && Has(Union(acc, Bit(sq)), i)
      ensures !Aligned(r + dr, f + df, dr, df, i / 8, i % 8)
    {
      HasUnion(acc, Bit(sq), i);
      HasBit(sq, i);
      AlignedFromNext(r, f, dr, df, i / 8, i % 8);
    }
  }

  lemma EmptyOffWalk(r: int, f: int, dr: int, df: int)
    ensures OffWalk(0, r, f, dr, df)
  {
    forall i | 0 <= i < 64
      ensures !Has(0, i)
    {
      assert 0 & Bit(i) == 0;
    }
  }

  lemma OffWalkUnion(a: bv64, b: bv64, r: int, f: int, dr: int, df: int)
    requires OffWalk(a, r, f, dr, df) && OffWalk(b, r, f, dr, df)
    ensures OffWalk(Union(a, b), r, f, dr, df)
  {
    hide Union;
    forall i | 0 <= i < 64 && Has(Union(a, b), i)
      ensures !Aligned(r, f, dr, df, i / 8, i % 8)
    {
      HasUnion(a, b, i);
    }
  }

  /** A mask walk added to a set it misses adds its `Span` to the pop count. */
  lemma {:induction false} CountOnto(acc: bv64, r: int, f: int, dr: int, df: int)
    requires Direction(dr, df) && OffWalk(acc, r, f, dr, df)
    ensures PopCount(Union(acc, MaskRay(r, f, dr, df))) == PopCount(acc) + Span(r, f, dr, df)
    decreases Reach(r, dr) + Reach(f, df)
  {
    hide MaskRay, PopCount, Span, Bit, Has, OffWalk, Union;
    if Inner(r, f, dr, df) {
      OffWalkStep(acc, r, f, dr, df);
      AddSquare(acc, 8 * r + f);
      CountOnto(Union(acc, Bit(8 * r + f)), r + dr, f + df, dr, df);
      CountInner(acc, r, f, dr, df);
    } else {
      CountStop(acc, r, f, dr, df);
    }
  }

  /** The count of an inner walk: its first square, then the walk from the next square. */
  lemma CountInner(acc: bv64, r: int, f: int, dr: int, df: int)
    requires Direction(dr, df) && Inner(r, f, dr, df)
    requires PopCount(Union(acc, Bit(8 * r + f))) == PopCount(acc) + 1
    requires PopCount(Union(Union(acc, Bit(8 * r + f)), MaskRay(r + dr, f + df, dr, df)))
          == PopCount(Union(acc, Bit(8 * r + f))) + Span(r + dr, f + df, dr, df)
    ensures PopCount(Union(acc, MaskRay(r, f, dr, df))) == PopCount(acc) + Span(r, f, dr, df)
  {
    hide MaskRay, PopCount, Span, Bit, Union, Direction;
    SpanStep(r, f, dr, df);
    MaskRayUnion(r, f, dr, df);
    UnionAssoc(acc, Bit(8 * r + f), MaskRay(r + dr, f + df, dr, df));
  }

  /** `MaskRayInner` with the union behind `Union`. */
  lemma MaskRayUnion(r: int, f: int, dr: int, df: int)
    requires Direction(dr, df) && Inner(r, f, dr, df)
    ensures MaskRay(r, f, dr, df) == Union(Bit(8 * r + f), MaskRay(r + dr, f + df, dr, df))
  {
    hide MaskRay, Bit;
    MaskRayInner(r, f, dr, df);
  }

  lemma CountStop(acc: bv64, r: int, f: int, dr: int, df: int)
    requires Direction(dr, df) && !Inner(r, f, dr, df)
    ensures PopCount(Union(acc, MaskRay(r, f, dr, df))) == PopCount(acc) + Span(r, f, dr, df)
  {
    hide MaskRay, PopCount, Span;
    SpanStep(r, f, dr, df);
    MaskRayStop(r, f, dr, df);
    ZeroOr(acc);
  }

  /** Every square of a mask walk lies on the walk's line, from its first square on. */
  lemma {:induction false} MaskRayAligned(r: int, f: int, dr: int, df: int, i: nat)
    requires Direction(dr, df) && i < 64
    ensures Has(MaskRay(r, f, dr, df), i) ==> Aligned(r, f, dr, df, i / 8, i % 8)
    decreases Reach(r, dr) + Reach(f, df)
  {
    hide MaskRay, Bit, Has, Aligned, Union;
    if Inner(r, f, dr, df) {
      var sq := 8 * r + f;
      SquareCoordinates(r, f);
      MaskRayUnion(r, f, dr, df);
      HasUnion(Bit(sq), MaskRay(r + dr, f + df, dr, df), i);
      HasBit(sq, i);
      MaskRayAligned(r + dr, f + df, dr, df, i);
      AlignedFromNext(r, f, dr, df, i / 8, i % 8);
      RayStart(r, f, dr, df);
    } else {
      MaskRayStop(r, f, dr, df);
      Evaluation.HasIs(0, i);
    }
  }

  /** A walk misses a second walk that shares none of its line. */
  lemma RayOffWalk(r1: int, f1: int, dr1: int, df1: int, r2: int, f2: int, dr2: int, df2: int)
    requires Direction(dr1, df1)
    requires forall x: int, y: int :: Aligned(r1, f1, dr1, df1, x, y) ==> !Aligned(r2, f2, dr2, df2, x, y)
    ensures OffWalk(MaskRay(r1, f1, dr1, df1), r2, f2, dr2, df2)
  {
    forall i | 0 <= i < 64 && Has(MaskRay(r1, f1, dr1, df1), i)
      ensures !Aligned(r2, f2, dr2, df2, i / 8, i % 8)
    {
      MaskRayAligned(r1, f1, dr1, df1, i);
    }
  }

  // ---- The rook mask ----

  /** The squares of the rook's mask, counted walk by walk: up, down, right, left. */
  function RookSpan(square: nat): nat
    requires square < 64
  {
    var tr, tf := square / 8, square % 8;
    Span(tr + 1, tf, 1, 0) + Span(tr - 1, tf, -1, 0) + Span(tr, tf + 1, 0, 1) + Span(tr, tf - 1, 0, -1)
  }

  /** The four walks of the rook mask share no square. */
  lemma RookWalksApart(tr: int, tf: int)
    ensures OffWalk(MaskRay(tr + 1, tf, 1, 0), tr - 1, tf, -1, 0)
    ensures OffWalk(MaskRay(tr + 1, tf, 1, 0), tr, tf + 1, 0, 1)
    ensures OffWalk(MaskRay(tr - 1, tf, -1, 0), tr, tf + 1, 0, 1)
    ensures OffWalk(MaskRay(tr + 1, tf, 1, 0), tr, tf - 1, 0, -1)
    ensures OffWalk(MaskRay(tr - 1, tf, -1, 0), tr, tf - 1, 0, -1)
    ensures OffWalk(MaskRay(tr, tf + 1, 0, 1), tr, tf - 1, 0, -1)
  {
    RayOffWalk(tr + 1, tf, 1, 0, tr - 1, tf, -1, 0);
    RayOffWalk(tr + 1, tf, 1, 0, tr, tf + 1, 0, 1);
    RayOffWalk(tr - 1, tf, -1, 0, tr, tf + 1, 0, 1);
    RayOffWalk(tr + 1, tf, 1, 0, tr, tf - 1, 0, -1);
    RayOffWalk(tr - 1, tf, -1, 0, tr, tf - 1, 0, -1);
    RayOffWalk(tr, tf + 1, 0, 1, tr, tf - 1, 0, -1);
  }

  /** The rook mask as the union of its four walks, up, down, right and left. */
  lemma RookMaskUnion(square: nat, tr: nat, tf: nat)
    requires square < 64 && tr == square / 8 && tf == square % 8
    ensures RookMask(square) == Union(Union(Union(MaskRay(tr + 1, tf, 1, 0), MaskRay(tr - 1, tf, -1, 0)),
                                            MaskRay(tr, tf + 1, 0, 1)), MaskRay(tr, tf - 1, 0, -1))
  {
    hide MaskRay, RookMask;
    RookMaskRays(square, tr, tf);
  }

  /** The rook mask holds the squares of its four walks, none of them twice. */
  lemma RookMaskCount(square: nat)
    requires square < 64
    ensures PopCount(RookMask(square)) == RookSpan(square)
  {
    var tr, tf := square / 8, square % 8;
    RookMaskUnion(square, tr, tf);
    hide MaskRay, RookMask, PopCount, Span, OffWalk, Union;
    RookWalksApart(tr, tf);
    CountFour(tr + 1, tf, 1, 0, tr - 1, tf, -1, 0, tr, tf + 1, 0, 1, tr, tf - 1, 0, -1);
  }

  /** Four walks, each off the walks after it, hold as many squares as their spans add up to. */
  lemma CountFour(r1: int, f1: int, dr1: int, df1: int, r2: int, f2: int, dr2: int, df2: int,
                  r3: int, f3: int, dr3: int, df3: int, r4: int, f4: int, dr4: int, df4: int)
    requires Direction(dr1, df1) && Direction(dr2, df2) && Direction(dr3, df3) && Direction(dr4, df4)
    requires OffWalk(MaskRay(r1, f1, dr1, df1), r2, f2, dr2, df2)
    requires OffWalk(MaskRay(r1, f1, dr1, df1), r3, f3, dr3, df3)
    requires OffWalk(MaskRay(r2, f2, dr2, df2), r3, f3, dr3, df3)
    requires OffWalk(MaskRay(r1, f1, dr1, df1), r4, f4, dr4, df4)
    requires OffWalk(MaskRay(r2, f2, dr2, df2), r4, f4, dr4, df4)
    requires OffWalk(MaskRay(r3, f3, dr3, df3), r4, f4, dr4, df4)
    ensures PopCount(Union(Union(Union(MaskRay(r1, f1, dr1, df1), MaskRay(r2, f2, dr2, df2)),
                                 MaskRay(r3, f3, dr3, df3)), MaskRay(r4, f4, dr4, df4)))
         == Span(r1, f1, dr1, df1) + Span(r2, f2, dr2, df2) + Span(r3, f3, dr3, df3) + Span(r4, f4, dr4, df4)
  {
    var m1, m2, m3 := MaskRay(r1, f1, dr1, df1), MaskRay(r2, f2, dr2, df2), MaskRay(r3, f3, dr3, df3);
    hide MaskRay, PopCount, Span, OffWalk, Union, Direction;
    EmptyOffWalk(r1, f1, dr1, df1);
    Magic.PopCountZero(0);
    UnionZero(m1);
    CountOnto(0, r1, f1, dr1, df1);
    CountOnto(m1, r2, f2, dr2, df2);
    OffWalkUnion(m1, m2, r3, f3, dr3, df3);
    CountOnto(Union(m1, m2), r3, f3, dr3, df3);
    OffWalkUnion(m1, m2, r4, f4, dr4, df4);
    OffWalkUnion(Union(m1, m2), m3, r4, f4, dr4, df4);
    CountOnto(Union(Union(m1, m2), m3), r4, f4, dr4, df4);
  }

  // ---- The bishop mask ----

  /** The squares of the bishop's mask, counted walk by walk: up-right, up-left, down-right, down-left. */
  function BishopSpan(square: nat): nat
    requires square < 64
  {
    var tr, tf := square / 8, square % 8;
    Span(tr + 1, tf + 1, 1, 1) + Span(tr + 1, tf - 1, 1, -1) + Span(tr - 1, tf + 1, -1, 1) + Span(tr - 1, tf - 1, -1, -1)
  }

  /** The four walks of the bishop mask share no square. */
  lemma BishopWalksApart(tr: int, tf: int)
    ensures OffWalk(MaskRay(tr + 1, tf + 1, 1, 1), tr + 1, tf - 1, 1, -1)
    ensures OffWalk(MaskRay(tr + 1, tf + 1, 1, 1), tr - 1, tf + 1, -1, 1)
    ensures OffWalk(MaskRay(tr + 1, tf - 1, 1, -1), tr - 1, tf + 1, -1, 1)
    ensures OffWalk(MaskRay(tr + 1, tf + 1, 1, 1), tr - 1, tf - 1, -1, -1)
    ensures OffWalk(MaskRay(tr + 1, tf - 1, 1, -1), tr - 1, tf - 1, -1, -1)
    ensures OffWalk(MaskRay(tr - 1, tf + 1, -1, 1), tr - 1, tf - 1, -1, -1)
  {
    RayOffWalk(tr + 1, tf + 1, 1, 1, tr + 1, tf - 1, 1, -1);
    RayOffWalk(tr + 1, tf + 1, 1, 1, tr - 1, tf + 1, -1, 1);
    RayOffWalk(tr + 1, tf - 1, 1, -1, tr - 1, tf + 1, -1, 1);
    RayOffWalk(tr + 1, tf + 1, 1, 1, tr - 1, tf - 1, -1, -1);
    RayOffWalk(tr + 1, tf - 1, 1, -1, tr - 1, tf - 1, -1, -1);
    RayOffWalk(tr - 1, tf + 1, -1, 1, tr - 1, tf - 1, -1, -1);
  }

  /** The bishop mask as the union of its four walks. */
  lemma BishopMaskUnion(square: nat, tr: nat, tf: nat)
    requires square < 64 && tr == square / 8 && tf == square % 8
    ensures BishopMask(square) == Union(Union(Union(MaskRay(tr + 1, tf + 1, 1, 1), MaskRay(tr + 1, tf - 1, 1, -1)),
                                              MaskRay(tr - 1, tf + 1, -1, 1)), MaskRay(tr - 1, tf - 1, -1, -1))
  {
    hide MaskRay, BishopMask;
    BishopMaskRays(square, tr, tf);
  }

  /** The bishop mask holds the squares of its four walks, none of them twice. */
  lemma BishopMaskCount(square: nat)
    requires square < 64
    ensures PopCount(BishopMask(square)) == BishopSpan(square)
  {
    var tr, tf := square / 8, square % 8;
    BishopMaskUnion(square, tr, tf);
    hide MaskRay, BishopMask, PopCount, Span, OffWalk, Union;
    BishopWalksApart(tr, tf);
    CountFour(tr + 1, tf + 1, 1, 1, tr + 1, tf - 1, 1, -1, tr - 1, tf + 1, -1, 1, tr - 1, tf - 1, -1, -1);
  }

  // ---- The relevant-bit tables ----

  /** An entry of a bit-vector table read through its rank and file. */
  lemma WidthAt(t: seq<bv64>, f: nat -> int, square: nat)
    requires |t| == 64 && square < 64
    requires Rank(t, square / 8)[square % 8] as int == Eight(f, 8 * (square / 8))[square % 8]
    ensures t[square] as int == f(square)
  {
    var r, c := square / 8, square % 8;
    PickOfEight(f, 8 * r, c);
    assert Rank(t, r)[c] == t[8 * r + c];
  }

  /** The rook span of a square, and 0 off the board. */
  function RookSpanAt(i: nat): int
  {
    if i < 64 then RookSpan(i) else 0
  }

  lemma RookRow0()
    ensures Rank(ROOK_RELEVANT_BITS, 0) == [12, 11, 11, 11, 11, 11, 11, 12]
    ensures Eight(RookSpanAt, 0) == [12, 11, 11, 11, 11, 11, 11, 12]
  {}

  lemma RookWidth0(c: nat)
    requires c < 8
    ensures Rank(ROOK_RELEVANT_BITS, 0)[c] as int == Eight(RookSpanAt, 0)[c]
  {
    hide RookSpanAt;
    RookRow0();
    if c == 0 {} else if c == 1 {} else if c == 2 {} else if c == 3 {}
    else if c == 4 {} else if c == 5 {} else if c == 6 {} else {}
  }

  lemma RookRow1()
    ensures Rank(ROOK_RELEVANT_BITS, 1) == [11, 10, 10, 10, 10, 10, 10, 11]
    ensures Eight(RookSpanAt, 8) == [11, 10, 10, 10, 10, 10, 10, 11]
  {}

  lemma RookWidth1(c: nat)
    requires c < 8
    ensures Rank(ROOK_RELEVANT_BITS, 1)[c] as int == Eight(RookSpanAt, 8)[c]
  {
    hide RookSpanAt;
    RookRow1();
    if c == 0 {} else if c == 1 {} else if c == 2 {} else if c == 3 {}
    else if c == 4 {} else if c == 5 {} else if c == 6 {} else {}
  }

  lemma RookRow2()
    ensures Rank(ROOK_RELEVANT_BITS, 2) == [11, 10, 10, 10, 10, 10, 10, 11]
    ensures Eight(RookSpanAt, 16) == [11, 10, 10, 10, 10, 10, 10, 11]
  {}

  lemma RookWidth2(c: nat)
    requires c < 8
    ensures Rank(ROOK_RELEVANT_BITS, 2)[c] as int == Eight(RookSpanAt, 16)[c]
  {
    hide RookSpanAt;
    RookRow2();
    if c == 0 {} else if c == 1 {} else if c == 2 {} else if c == 3 {}
    else if c == 4 {} else if c == 5 {} else if c == 6 {} else {}
  }

  lemma RookRow3()
    ensures Rank(ROOK_RELEVANT_BITS, 3) == [11, 10, 10, 10, 10, 10, 10, 11]
    ensures Eight(RookSpanAt, 24) == [11, 10, 10, 10, 10, 10, 10, 11]
  {}

  lemma RookWidth3(c: nat)
    requires c < 8
    ensures Rank(ROOK_RELEVANT_BITS, 3)[c] as int == Eight(RookSpanAt, 24)[c]
  {
    hide RookSpanAt;
    RookRow3();
    if c == 0 {} else if c == 1 {} else if c == 2 {} else if c == 3 {}
    else if c == 4 {} else if c == 5 {} else if c == 6 {} else {}
  }

  lemma RookRow4()
    ensures Rank(ROOK_RELEVANT_BITS, 4) == [11, 10, 10, 10, 10, 10, 10, 11]
    ensures Eight(RookSpanAt, 32) == [11, 10, 10, 10, 10, 10, 10, 11]
  {}

  lemma RookWidth4(c: nat)
    requires c < 8
    ensures Rank(ROOK_RELEVANT_BITS, 4)[c] as int == Eight(RookSpanAt, 32)[c]
  {
    hide RookSpanAt;
    RookRow4();
    if c == 0 {} else if c == 1 {} else if c == 2 {} else if c == 3 {}
    else if c == 4 {} else if c == 5 {} else if c == 6 {} else {}
  }

  lemma RookRow5()
    ensures Rank(ROOK_RELEVANT_BITS, 5) == [11, 10, 10, 10, 10, 10, 10, 11]
    ensures Eight(RookSpanAt, 40) == [11, 10, 10, 10, 10, 10, 10, 11]
  {}

  lemma RookWidth5(c: nat)
    requires c < 8
    ensures Rank(ROOK_RELEVANT_BITS, 5)[c] as int == Eight(RookSpanAt, 40)[c]
  {
    hide RookSpanAt;
    RookRow5();
    if c == 0 {} else if c == 1 {} else if c == 2 {} else if c == 3 {}
    else if c == 4 {} else if c == 5 {} else if c == 6 {} else {}
  }

  lemma RookRow6()
    ensures Rank(ROOK_RELEVANT_BITS, 6) == [11, 10, 10, 10, 10, 10, 10, 11]
    ensures Eight(RookSpanAt, 48) == [11, 10, 10, 10, 10, 10, 10, 11]
  {}

  lemma RookWidth6(c: nat)
    requires c < 8
    ensures Rank(ROOK_RELEVANT_BITS, 6)[c] as int == Eight(RookSpanAt, 48)[c]
  {
    hide RookSpanAt;
    RookRow6();
    if c == 0 {} else if c == 1 {} else if c == 2 {} else if c == 3 {}
    else if c == 4 {} else if c == 5 {} else if c == 6 {} else {}
  }

  lemma RookRow7()
    ensures Rank(ROOK_RELEVANT_BITS, 7) == [12, 11, 11, 11, 11, 11, 11, 12]
    ensures Eight(RookSpanAt, 56) == [12, 11, 11, 11, 11, 11, 11, 12]
  {}

  lemma RookWidth7(c: nat)
    requires c < 8
    ensures Rank(ROOK_RELEVANT_BITS, 7)[c] as int == Eight(RookSpanAt, 56)[c]
  {
    hide RookSpanAt;
    RookRow7();
    if c == 0 {} else if c == 1 {} else if c == 2 {} else if c == 3 {}
    else if c == 4 {} else if c == 5 {} else if c == 6 {} else {}
  }

  /** Rank `r` of ROOK_RELEVANT_BITS holds the spans of its squares. */
  lemma RookWidthRank(r: nat, c: nat)
    requires r < 8 && c < 8
    ensures Rank(ROOK_RELEVANT_BITS, r)[c] as int == Eight(RookSpanAt, 8 * r)[c]
  {
    hide RookSpanAt;
    if r == 0 { RookWidth0(c); } else if r == 1 { RookWidth1(c); } else if r == 2 { RookWidth2(c); } else if r == 3 { RookWidth3(c); } else if r == 4 { RookWidth4(c); } else if r == 5 { RookWidth5(c); } else if r == 6 { RookWidth6(c); } else { RookWidth7(c); }
  }

  /** The relevant-bit count of a rook square is the size of its mask. */
  lemma RookRelevantBits(square: nat)
    requires square < 64
    ensures PopCount(RookMask(square)) == ROOK_RELEVANT_BITS[square] as int
  {
    hide PopCount, RookMask, RookSpan;
    RookSpanBits(square);
    RookMaskCount(square);
  }

  /** Entry `square` of ROOK_RELEVANT_BITS is the span of the square. */
  lemma RookSpanBits(square: nat)
    requires square < 64
    ensures ROOK_RELEVANT_BITS[square] as int == RookSpan(square)
  {
    hide RookSpan;
    RookWidthRank(square / 8, square % 8);
    WidthAt(ROOK_RELEVANT_BITS, RookSpanAt, square);
  }

  /** The bishop span of a square, and 0 off the board. */
  function BishopSpanAt(i: nat): int
  {
    if i < 64 then BishopSpan(i) else 0
  }

  lemma BishopRow0()
    ensures Rank(BISHOP_RELEVANT_BITS, 0) == [6, 5, 5, 5, 5, 5, 5, 6]
    ensures Eight(BishopSpanAt, 0) == [6, 5, 5, 5, 5, 5, 5, 6]
  {}

  lemma BishopWidth0(c: nat)
    requires c < 8
    ensures Rank(BISHOP_RELEVANT_BITS, 0)[c] as int == Eight(BishopSpanAt, 0)[c]
  {
    hide BishopSpanAt;
    BishopRow0();
    if c == 0 {} else if c == 1 {} else if c == 2 {} else if c == 3 {}
    else if c == 4 {} else if c == 5 {} else if c == 6 {} else {}
  }

  lemma BishopRow1()
    ensures Rank(BISHOP_RELEVANT_BITS, 1) == [5, 5, 5, 5, 5, 5, 5, 5]
    ensures Eight(BishopSpanAt, 8) == [5, 5, 5, 5, 5, 5, 5, 5]
  {}

  lemma BishopWidth1(c: nat)
    requires c < 8
    ensures Rank(BISHOP_RELEVANT_BITS, 1)[c] as int == Eight(BishopSpanAt, 8)[c]
  {
    hide BishopSpanAt;
    BishopRow1();
    if c == 0 {} else if c == 1 {} else if c == 2 {} else if c == 3 {}
    else if c == 4 {} else if c == 5 {} else if c == 6 {} else {}
  }

  lemma BishopRow2()
    ensures Rank(BISHOP_RELEVANT_BITS, 2) == [5, 5, 7, 7, 7, 7, 5, 5]
    ensures Eight(BishopSpanAt, 16) == [5, 5, 7, 7, 7, 7, 5, 5]
  {}

  lemma BishopWidth2(c: nat)
    requires c < 8
    ensures Rank(BISHOP_RELEVANT_BITS, 2)[c] as int == Eight(BishopSpanAt, 16)[c]
  {
    hide BishopSpanAt;
    BishopRow2();
    if c == 0 {} else if c == 1 {} else if c == 2 {} else if c == 3 {}
    else if c == 4 {} else if c == 5 {} else if c == 6 {} else {}
  }

  lemma BishopRow3()
    ensures Rank(BISHOP_RELEVANT_BITS, 3) == [5, 5, 7, 9, 9, 7, 5, 5]
    ensures Eight(BishopSpanAt, 24) == [5, 5, 7, 9, 9, 7, 5, 5]
  {}

  lemma BishopWidth3(c: nat)
    requires c < 8
    ensures Rank(BISHOP_RELEVANT_BITS, 3)[c] as int == Eight(BishopSpanAt, 24)[c]
  {
    hide BishopSpanAt;
    BishopRow3();
    if c == 0 {} else if c == 1 {} else if c == 2 {} else if c == 3 {}
    else if c == 4 {} else if c == 5 {} else if c == 6 {} else {}
  }

  lemma BishopRow4()
    ensures Rank(BISHOP_RELEVANT_BITS, 4) == [5, 5, 7, 9, 9, 7, 5, 5]
    ensures Eight(BishopSpanAt, 32) == [5, 5, 7, 9, 9, 7, 5, 5]
  {}

  lemma BishopWidth4(c: nat)
    requires c < 8
    ensures Rank(BISHOP_RELEVANT_BITS, 4)[c] as int == Eight(BishopSpanAt, 32)[c]
  {
    hide BishopSpanAt;
    BishopRow4();
    if c == 0 {} else if c == 1 {} else if c == 2 {} else if c == 3 {}
    else if c == 4 {} else if c == 5 {} else if c == 6 {} else {}
  }

  lemma BishopRow5()
    ensures Rank(BISHOP_RELEVANT_BITS, 5) == [5, 5, 7, 7, 7, 7, 5, 5]
    ensures Eight(BishopSpanAt, 40) == [5, 5, 7, 7, 7, 7, 5, 5]
  {}

  lemma BishopWidth5(c: nat)
    requires c < 8
    ensures Rank(BISHOP_RELEVANT_BITS, 5)[c] as int == Eight(BishopSpanAt, 40)[c]
  {
    hide BishopSpanAt;
    BishopRow5();
    if c == 0 {} else if c == 1 {} else if c == 2 {} else if c == 3 {}
    else if c == 4 {} else if c == 5 {} else if c == 6 {} else {}
  }

  lemma BishopRow6()
    ensures Rank(BISHOP_RELEVANT_BITS, 6) == [5, 5, 5, 5, 5, 5, 5, 5]
    ensures Eight(BishopSpanAt, 48) == [5, 5, 5, 5, 5, 5, 5, 5]
  {}

  lemma BishopWidth6(c: nat)
    requires c < 8
    ensures Rank(BISHOP_RELEVANT_BITS, 6)[c] as int == Eight(BishopSpanAt, 48)[c]
  {
    hide BishopSpanAt;
    BishopRow6();
    if c == 0 {} else if c == 1 {} else if c == 2 {} else if c == 3 {}
    else if c == 4 {} else if c == 5 {} else if c == 6 {} else {}
  }

  lemma BishopRow7()
    ensures Rank(BISHOP_RELEVANT_BITS, 7) == [6, 5, 5, 5, 5, 5, 5, 6]
    ensures Eight(BishopSpanAt, 56) == [6, 5, 5, 5, 5, 5, 5, 6]
  {}

  lemma BishopWidth7(c: nat)
    requires c < 8
    ensures Rank(BISHOP_RELEVANT_BITS, 7)[c] as int == Eight(BishopSpanAt, 56)[c]
  {
    hide BishopSpanAt;
    BishopRow7();
    if c == 0 {} else if c == 1 {} else if c == 2 {} else if c == 3 {}
    else if c == 4 {} else if c == 5 {} else if c == 6 {} else {}
  }

  /** Rank `r` of BISHOP_RELEVANT_BITS holds the spans of its squares. */
  lemma BishopWidthRank(r: nat, c: nat)
    requires r < 8 && c < 8
    ensures Rank(BISHOP_RELEVANT_BITS, r)[c] as int == Eight(BishopSpanAt, 8 * r)[c]
  {
    hide BishopSpanAt;
    if r == 0 { BishopWidth0(c); } else if r == 1 { BishopWidth1(c); } else if r == 2 { BishopWidth2(c); } else if r == 3 { BishopWidth3(c); } else if r == 4 { BishopWidth4(c); } else if r == 5 { BishopWidth5(c); } else if r == 6 { BishopWidth6(c); } else { BishopWidth7(c); }
  }

  /** The relevant-bit count of a bishop square is the size of its mask. */
  lemma BishopRelevantBits(square: nat)
    requires square < 64
    ensures PopCount(BishopMask(square)) == BISHOP_RELEVANT_BITS[square] as int
  {
    hide PopCount, BishopMask, BishopSpan;
    BishopSpanBits(square);
    BishopMaskCount(square);
  }

  /** Entry `square` of BISHOP_RELEVANT_BITS is the span of the square. */
  lemma BishopSpanBits(square: nat)
    requires square < 64
    ensures BISHOP_RELEVANT_BITS[square] as int == BishopSpan(square)
  {
    hide BishopSpan;
    BishopWidthRank(square / 8, square % 8);
    WidthAt(BISHOP_RELEVANT_BITS, BishopSpanAt, square);
  }

  /** The relevant-bit count of a slider square is the size of its mask. */
  lemma MaskSizeIsRelevantBits(p: Slider, square: nat)
    requires square < 64
    ensures PopCount(SliderMask(p, square)) == RelevantBits(p, square) as int
  {
    if p == Rook {
      RookRelevantBits(square);
    } else {
      BishopRelevantBits(square);
    }
  }
}
