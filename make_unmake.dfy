/**
 * Properties of `apply_move` / `undo_move` (board/models.rs), stated on the
 * value-level functions `Models.Applied` and `Models.Undone`.
 */
module MakeUnmake {
  import opened Bits
  import opened Wrappers
  import opened Models

  /** Two shaped boards with the same side boards and the same piece rows are equal. */
  lemma BoardExt(a: PiecePosition, b: PiecePosition)
    requires Shaped(a) && Shaped(b)
    requires a.sidePieces == b.sidePieces && a.pieces[0] == b.pieces[0] && a.pieces[1] == b.pieces[1]
    ensures a == b
  {
    assert a.pieces == b.pieces;
  }

  /** Two boards with the same cells are the same board. */
  lemma BoardCellsExt(a: PiecePosition, b: PiecePosition)
    requires Shaped(a) && Shaped(b)
    requires forall s :: 0 <= s < 2 ==> a.sidePieces[s] == b.sidePieces[s]
    requires forall s, pc :: 0 <= s < 2 && 0 <= pc < 6 ==> a.pieces[s][pc] == b.pieces[s][pc]
    ensures a == b
  {
    assert a.pieces[0] == b.pieces[0] by {
      forall pc | 0 <= pc < 6 ensures a.pieces[0][pc] == b.pieces[0][pc] {}
    }
    assert a.pieces[1] == b.pieces[1] by {
      forall pc | 0 <= pc < 6 ensures a.pieces[1][pc] == b.pieces[1][pc] {}
    }
    BoardExt(a, b);
  }

  lemma {:induction false} ForwardRowAt(xs: seq<bv64>, es: seq<Shift>, i: nat)
    requires |xs| == |es| && i < |xs|
    ensures ForwardRow(xs, es)[i] == Forward(xs[i], es[i])
  {
    if i > 0 {
      ForwardRowAt(xs[1..], es[1..], i - 1);
    }
  }

  lemma {:induction false} BackwardRowAt(xs: seq<bv64>, es: seq<Shift>, i: nat)
    requires |xs| == |es| && i < |xs|
    ensures BackwardRow(xs, es)[i] == Backward(xs[i], es[i])
  {
    if i > 0 {
      BackwardRowAt(xs[1..], es[1..], i - 1);
    }
  }

  lemma EffectAt(me: nat, mi: MoveInfo)
    ensures forall s :: 0 <= s < 2 ==> EffectOf(me, mi).sides[s] == SideShift(me, mi, s)
    ensures forall s :: 0 <= s < 2 ==> EffectOf(me, mi).rooks[s] == SideRookShift(me, mi, s)
    ensures forall s, pc :: 0 <= s < 2 && 0 <= pc < 6 ==> EffectOf(me, mi).pieces[s][pc] == PieceShift(me, mi, s, pc)
  {}

  lemma ForwardAllAt(b: PiecePosition, e: Effect)
    requires Shaped(b) && EffectShaped(e)
    ensures forall s :: 0 <= s < 2 ==>
      ForwardAll(b, e).sidePieces[s] == Forward(Forward(b.sidePieces[s], e.sides[s]), e.rooks[s])
    ensures forall s, pc :: 0 <= s < 2 && 0 <= pc < 6 ==>
      ForwardAll(b, e).pieces[s][pc] == Forward(b.pieces[s][pc], e.pieces[s][pc])
  {
    forall s | 0 <= s < 2
      ensures ForwardAll(b, e).sidePieces[s] == Forward(Forward(b.sidePieces[s], e.sides[s]), e.rooks[s])
    {
      ForwardRowAt(ForwardRow(b.sidePieces, e.sides), e.rooks, s);
      ForwardRowAt(b.sidePieces, e.sides, s);
    }
    forall s, pc | 0 <= s < 2 && 0 <= pc < 6
      ensures ForwardAll(b, e).pieces[s][pc] == Forward(b.pieces[s][pc], e.pieces[s][pc])
    {
      ForwardRowAt(b.pieces[s], e.pieces[s], pc);
    }
  }

  lemma BackwardAllAt(b: PiecePosition, e: Effect)
    requires Shaped(b) && EffectShaped(e)
    ensures forall s :: 0 <= s < 2 ==>
      BackwardAll(b, e).sidePieces[s] == Backward(Backward(b.sidePieces[s], e.sides[s]), e.rooks[s])
    ensures forall s, pc :: 0 <= s < 2 && 0 <= pc < 6 ==>
      BackwardAll(b, e).pieces[s][pc] == Backward(b.pieces[s][pc], e.pieces[s][pc])
  {
    forall s | 0 <= s < 2
      ensures BackwardAll(b, e).sidePieces[s] == Backward(Backward(b.sidePieces[s], e.sides[s]), e.rooks[s])
    {
      BackwardRowAt(BackwardRow(b.sidePieces, e.sides), e.rooks, s);
      BackwardRowAt(b.sidePieces, e.sides, s);
    }
    forall s, pc | 0 <= s < 2 && 0 <= pc < 6
      ensures BackwardAll(b, e).pieces[s][pc] == Backward(b.pieces[s][pc], e.pieces[s][pc])
    {
      BackwardRowAt(b.pieces[s], e.pieces[s], pc);
    }
  }

  /**
   * `MovedBoard` bitboard by bitboard: each side board after its shift (and the
   * castling rook's), each piece board after its shift.
   */
  lemma MovedBoardCells(b: PiecePosition, me: nat, mi: MoveInfo, r: PiecePosition)
    requires Shaped(b) && Shaped(r)
    requires forall s :: 0 <= s < 2 ==>
      r.sidePieces[s] == Forward(Forward(b.sidePieces[s], SideShift(me, mi, s)), SideRookShift(me, mi, s))
    requires forall s, pc :: 0 <= s < 2 && 0 <= pc < 6 ==>
      r.pieces[s][pc] == Forward(b.pieces[s][pc], PieceShift(me, mi, s, pc))
    ensures r == MovedBoard(b, me, mi)
  {
    EffectAt(me, mi);
    ForwardAllAt(b, EffectOf(me, mi));
    BoardCellsExt(MovedBoard(b, me, mi), r);
  }

  /** `UnmovedBoard` bitboard by bitboard, the side boards taking back the king's shift first, then the rook's. */
  lemma UnmovedBoardCells(b: PiecePosition, me: nat, mi: MoveInfo, r: PiecePosition)
    requires Shaped(b) && Shaped(r)
    requires forall s :: 0 <= s < 2 ==>
      r.sidePieces[s] == Backward(Backward(b.sidePieces[s], SideShift(me, mi, s)), SideRookShift(me, mi, s))
    requires forall s, pc :: 0 <= s < 2 && 0 <= pc < 6 ==>
      r.pieces[s][pc] == Backward(b.pieces[s][pc], PieceShift(me, mi, s, pc))
    ensures r == UnmovedBoard(b, me, mi)
  {
    EffectAt(me, mi);
    BackwardAllAt(b, EffectOf(me, mi));
    BoardCellsExt(UnmovedBoard(b, me, mi), r);
  }

  lemma SlideBackForward(x: bv64, f: bv64, t: bv64)
    requires SlideMatches(x, f, t)
    ensures Backward(Forward(x, Slide(f, t)), Slide(f, t)) == x
  {}

  lemma LiftBackForward(x: bv64, f: bv64)
    requires Occupied(x, f)
    ensures Backward(Forward(x, Lift(f)), Lift(f)) == x
  {}

  lemma DropBackForward(x: bv64, t: bv64)
    requires Vacant(x, t)
    ensures Backward(Forward(x, Drop(t)), Drop(t)) == x
  {}

  /** Taking back a shift that matches the bitboard restores it. */
  lemma BackwardForward(x: bv64, sh: Shift)
    requires Matches(x, sh)
    ensures Backward(Forward(x, sh), sh) == x
  {
    match sh
    case Keep =>
    case Slide(f, t) => SlideBackForward(x, f, t);
    case Lift(f) => LiftBackForward(x, f);
    case Drop(t) => DropBackForward(x, t);
  }

  /** Taking back the shifts of a row that fits restores it. */
  lemma {:induction false} RowRoundTrip(xs: seq<bv64>, es: seq<Shift>)
    requires |xs| == |es| && FitsRow(xs, es)
    ensures BackwardRow(ForwardRow(xs, es), es) == xs
  {
    if xs != [] {
      BackwardForward(xs[0], es[0]);
      RowRoundTrip(xs[1..], es[1..]);
      var f := ForwardRow(xs, es);
      assert f[0] == Forward(xs[0], es[0]) && f[1..] == ForwardRow(xs[1..], es[1..]);
    }
  }

  lemma SlidesSwap(z: bv64, af: bv64, at: bv64, bf: bv64, bt: bv64)
    requires SlidesDisjoint(af, at, bf, bt)
    ensures Put(Clear(Put(Clear(z, at), af), bt), bf) == Put(Clear(Put(Clear(z, bt), bf), at), af)
  {}

  /** Two shifts that commute can be taken back in either order. */
  lemma BackwardSwap(z: bv64, a: Shift, b: Shift)
    requires Commute(a, b)
    ensures Backward(Backward(z, a), b) == Backward(Backward(z, b), a)
  {
    if !b.Keep? {
      SlidesSwap(z, a.from, a.to, b.from, b.to);
    }
  }

  lemma {:induction false} RowSwap(zs: seq<bv64>, firsts: seq<Shift>, seconds: seq<Shift>)
    requires |zs| == |firsts| == |seconds| && CommuteRow(firsts, seconds)
    ensures BackwardRow(BackwardRow(zs, firsts), seconds) == BackwardRow(BackwardRow(zs, seconds), firsts)
  {
    if zs != [] {
      BackwardSwap(zs[0], firsts[0], seconds[0]);
      RowSwap(zs[1..], firsts[1..], seconds[1..]);
      var l := BackwardRow(zs, firsts);
      var r := BackwardRow(zs, seconds);
      assert l[0] == Backward(zs[0], firsts[0]) && l[1..] == BackwardRow(zs[1..], firsts[1..]);
      assert r[0] == Backward(zs[0], seconds[0]) && r[1..] == BackwardRow(zs[1..], seconds[1..]);
    }
  }

  /** Taking back all shifts of an effect that fits the board restores every bitboard. */
  lemma AllRoundTrip(b: PiecePosition, e: Effect)
    requires Shaped(b) && EffectShaped(e) && FitsAll(b, e) && CommuteRow(e.sides, e.rooks)
    ensures BackwardAll(ForwardAll(b, e), e) == b
  {
    var f := ForwardAll(b, e);
    RowSwap(f.sidePieces, e.sides, e.rooks);
    RowRoundTrip(b.sidePieces, e.sides);
    RowRoundTrip(ForwardRow(b.sidePieces, e.sides), e.rooks);
    RowRoundTrip(b.pieces[0], e.pieces[0]);
    RowRoundTrip(b.pieces[1], e.pieces[1]);
    BoardExt(BackwardAll(f, e), b);
  }

  /** A castle's king and rook move on four distinct squares; every other move has no rook shift. */
  lemma EffectCommutes(me: nat, mi: MoveInfo)
    ensures CommuteRow(EffectOf(me, mi).sides, EffectOf(me, mi).rooks)
  {
  }

  /** `undo_move` puts back every bitboard `apply_move` changed. */
  lemma BoardRoundTrip(b: PiecePosition, me: nat, mi: MoveInfo)
    requires Shaped(b) && Fits(b, me, mi)
    ensures UnmovedBoard(MovedBoard(b, me, mi), me, mi) == b
  {
    EffectCommutes(me, mi);
    AllRoundTrip(b, EffectOf(me, mi));
  }

  /** `undo_move(mi)` after `apply_move(mi)` gives back the whole position, history included. */
  lemma ApplyUndo(p: PositionValue, mi: MoveInfo)
    requires Applicable(p, mi) && Fits(p.board, p.sideToMove, mi)
    ensures Undoable(Applied(p, mi), mi)
    ensures Undone(Applied(p, mi), mi) == p
  {
    var q := Applied(p, mi);
    BoardRoundTrip(p.board, p.sideToMove, mi);
    assert q.statePrev[..|q.statePrev| - 1] == p.statePrev;
    assert q.zobristPrev[..|q.zobristPrev| - 1] == p.zobristPrev;
  }
}
