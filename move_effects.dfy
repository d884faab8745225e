/**
 * What one `apply_move` does (board/models.rs), fact by fact: the counters and the
 * side to move, the en-passant square, the castling rights, the bitboards of a
 * Normal move and the hash of a quiet move. Stated on `Models.Applied`, which the
 * `Position` class is proved to compute.
 */
module MoveEffects {
  import opened Bits
  import opened Wrappers
  import opened Models
  import opened MakeUnmake

  // ---- Side to move and counters ----

  /**
   * `apply_move` hands the move to the other side and counts one more half move;
   * `since_last_capture` starts again at 0 exactly on a capture, and
   * `since_last_capture_or_pawn_movement` exactly on a capture or a pawn move;
   * otherwise both grow by one. The old state and hash go on the history stacks.
   */
  lemma AppliedCounters(p: PositionValue, mi: MoveInfo)
    requires Applicable(p, mi)
    ensures Applied(p, mi).sideToMove == Opposite(p.sideToMove) != p.sideToMove
    ensures Applied(p, mi).halfMoveNumber == p.halfMoveNumber + 1
    ensures Applied(p, mi).state.sinceLastCapture == 0 <==> mi.capturedPiece.Some?
    ensures mi.capturedPiece.None? ==> Applied(p, mi).state.sinceLastCapture == p.state.sinceLastCapture + 1
    ensures Applied(p, mi).state.sinceLastCaptureOrPawnMovement == 0
      <==> mi.capturedPiece.Some? || mi.piece == PAWN
    ensures mi.capturedPiece.None? && mi.piece != PAWN ==>
      Applied(p, mi).state.sinceLastCaptureOrPawnMovement == p.state.sinceLastCaptureOrPawnMovement + 1
    ensures Applied(p, mi).statePrev == p.statePrev + [p.state]
    ensures Applied(p, mi).zobristPrev == p.zobristPrev + [p.zobrist]
  {
  }

  /** `undo_move` hands the move back, takes one half move back and pops the state and the hash. */
  lemma UndoneCounters(p: PositionValue, mi: MoveInfo)
    requires Undoable(p, mi)
    ensures Undone(p, mi).sideToMove == Opposite(p.sideToMove) != p.sideToMove
    ensures Undone(p, mi).halfMoveNumber + 1 == p.halfMoveNumber
    ensures Undone(p, mi).statePrev + [Undone(p, mi).state] == p.statePrev
    ensures Undone(p, mi).zobristPrev + [Undone(p, mi).zobrist] == p.zobristPrev
  {
  }

  // ---- En passant ----

  /** A pawn's start square on `file`: rank 2 for white, rank 7 for black. */
  function PawnStart(me: nat, file: nat): bv64
    requires file < 8
  {
    if me == WHITE then Bit(8 + file) else Bit(48 + file)
  }

  /** The square a double push from the start square on `file` passes over. */
  function PassedOver(me: nat, file: nat): bv64
    requires file < 8
  {
    if me == WHITE then Bit(16 + file) else Bit(40 + file)
  }

  /** The target of a double push from the start square on `file`. */
  function DoublePushTarget(me: nat, file: nat): bv64
    requires file < 8
  {
    if me == WHITE then Bit(24 + file) else Bit(32 + file)
  }

  /** The squares of a double push are two ranks apart, with the passed-over square between them. */
  lemma DoublePushSquares(me: nat, file: nat)
    requires me < 2 && file < 8
    ensures me == WHITE ==> PawnStart(me, file) == DoublePushTarget(me, file) >> 16
    ensures me == BLACK ==> PawnStart(me, file) == DoublePushTarget(me, file) << 16
    ensures Behind(me, DoublePushTarget(me, file)) == PassedOver(me, file)
    ensures DoublePushTarget(me, file) != NONE
  {
    if file == 0 {} else if file == 1 {} else if file == 2 {} else if file == 3 {}
    else if file == 4 {} else if file == 5 {} else if file == 6 {} else {}
  }

  /**
   * A pawn's double push from its start square leaves the en-passant square on the
   * square it passed over (e2e4 gives e3).
   */
  lemma DoublePushEnPassant(b: PiecePosition, me: nat, file: nat, captured: Option<nat>)
    requires Shaped(b) && me < 2 && file < 8
    requires b.pieces[me][PAWN] & PawnStart(me, file) != 0
    ensures NextEnPassant(b, me, MoveInfo(Normal(PawnStart(me, file), DoublePushTarget(me, file)), PAWN, captured))
      == PassedOver(me, file)
  {
    DoublePushSquares(me, file);
  }

  /** The worked example: white's e2e4 with a white pawn on e2 gives the en-passant square e3. */
  lemma E2E4EnPassant(b: PiecePosition)
    requires Shaped(b) && b.pieces[WHITE][PAWN] & E2 != 0
    ensures NextEnPassant(b, WHITE, MoveInfo(Normal(E2, E4), PAWN, None)) == E3
  {
  }

  /** Every move but an own pawn's double push leaves no en-passant square. */
  lemma OnlyDoublePushEnPassant(b: PiecePosition, me: nat, mi: MoveInfo)
    requires Shaped(b) && me < 2
    requires !(mi.m.Normal? && mi.piece == PAWN && PawnMovingTwoSquares(b, me, mi.m.from, mi.m.to))
    ensures NextEnPassant(b, me, mi) == NONE
  {
  }

  // ---- Castling rights ----

  lemma RevokedFlag(c: bv8, lost: bv8, flag: bv8)
    requires lost & flag == flag
    ensures Revoke(c, lost) & flag == 0
  {
  }

  lemma RevokedNothing(c: bv8)
    ensures Revoke(c, 0) == c
  {
  }

  /** Which flags each event puts among the lost rights. */
  lemma LostFlags(me: nat, e: CastlingEvents)
    ensures e.kingMoved ==> LostRights(me, e) & (KingSide(me) | QueenSide(me)) == KingSide(me) | QueenSide(me)
    ensures e.kingRookMoved ==> LostRights(me, e) & KingSide(me) == KingSide(me)
    ensures e.queenRookMoved ==> LostRights(me, e) & QueenSide(me) == QueenSide(me)
    ensures e.oppositeKingRookCaptured ==> LostRights(me, e) & KingSide(Opposite(me)) == KingSide(Opposite(me))
    ensures e.oppositeQueenRookCaptured ==> LostRights(me, e) & QueenSide(Opposite(me)) == QueenSide(Opposite(me))
    ensures !AnyEvent(e) ==> LostRights(me, e) == 0
  {
    if me == BLACK {} else {}
  }

  /** A flag among the lost rights is gone after the move (and with no right left, every flag is). */
  lemma FlagGone(c: bv8, me: nat, e: CastlingEvents, flag: bv8)
    requires LostRights(me, e) & flag == flag
    ensures CastlingAfter(c, me, e) & flag == 0
  {
    if c != NO_CASTLING {
      CastlingAfterClears(c, me, e);
      RevokedFlag(c, LostRights(me, e), flag);
    }
  }

  /** With nothing lost the rights stay as they were. */
  lemma NothingLost(c: bv8, me: nat, e: CastlingEvents)
    requires LostRights(me, e) == 0
    ensures CastlingAfter(c, me, e) == c
  {
    if c != NO_CASTLING {
      CastlingAfterClears(c, me, e);
      RevokedNothing(c);
    }
  }

  /**
   * On the events alone: the rights only ever lose bits; a king move clears both of
   * the mover's rights, a moved rook its side's right, a captured rook the
   * opponent's matching right; with no event the rights stay as they were.
   */
  lemma CastlingEventsLost(c: bv8, me: nat, e: CastlingEvents)
    ensures CastlingAfter(c, me, e) & !c == 0
    ensures e.kingMoved ==> CastlingAfter(c, me, e) & (KingSide(me) | QueenSide(me)) == 0
    ensures e.kingRookMoved ==> CastlingAfter(c, me, e) & KingSide(me) == 0
    ensures e.queenRookMoved ==> CastlingAfter(c, me, e) & QueenSide(me) == 0
    ensures e.oppositeKingRookCaptured ==> CastlingAfter(c, me, e) & KingSide(Opposite(me)) == 0
    ensures e.oppositeQueenRookCaptured ==> CastlingAfter(c, me, e) & QueenSide(Opposite(me)) == 0
    ensures !AnyEvent(e) ==> CastlingAfter(c, me, e) == c
  {
    hide CastlingAfter, LostRights, Revoke, KingSide, QueenSide;
    CastlingOnlyLoses(c, me, e);
    LostFlags(me, e);
    if e.kingMoved {
      FlagGone(c, me, e, KingSide(me) | QueenSide(me));
    }
    if e.kingRookMoved {
      FlagGone(c, me, e, KingSide(me));
    }
    if e.queenRookMoved {
      FlagGone(c, me, e, QueenSide(me));
    }
    if e.oppositeKingRookCaptured {
      FlagGone(c, me, e, KingSide(Opposite(me)));
    }
    if e.oppositeQueenRookCaptured {
      FlagGone(c, me, e, QueenSide(Opposite(me)));
    }
    if !AnyEvent(e) {
      NothingLost(c, me, e);
    }
  }

  /** The mover's home corners: h1/a1 for white, h8/a8 for black. */
  function KingRookCorner(side: nat): bv64
  {
    if side == WHITE then H1 else H8
  }

  function QueenRookCorner(side: nat): bv64
  {
    if side == WHITE then A1 else A8
  }

  /**
   * Which moves raise which events: any king move; a rook leaving its own home
   * corner; capturing an opponent's rook on the opponent's home corner.
   */
  lemma EventsOfMove(b: PiecePosition, me: nat, mi: MoveInfo)
    requires Shaped(b) && me < 2
    ensures mi.piece == KING ==> Events(b, me, mi).kingMoved
    ensures mi.m.Normal? && mi.piece == ROOK && Share(KingRookCorner(me), b.pieces[me][ROOK], mi.m.from)
      ==> Events(b, me, mi).kingRookMoved
    ensures mi.m.Normal? && mi.piece == ROOK && Share(QueenRookCorner(me), b.pieces[me][ROOK], mi.m.from)
      ==> Events(b, me, mi).queenRookMoved
    ensures (mi.m.Normal? || mi.m.Promotion?) && mi.capturedPiece == Some(ROOK)
      && Share(KingRookCorner(Opposite(me)), b.pieces[Opposite(me)][ROOK], mi.m.to)
      ==> Events(b, me, mi).oppositeKingRookCaptured
    ensures (mi.m.Normal? || mi.m.Promotion?) && mi.capturedPiece == Some(ROOK)
      && Share(QueenRookCorner(Opposite(me)), b.pieces[Opposite(me)][ROOK], mi.m.to)
      ==> Events(b, me, mi).oppositeQueenRookCaptured
  {
  }

  // ---- The bitboards of a Normal move ----

  /** `x` loses `sq` and gains `add`: a slide from `sq` to `add` on one bitboard. */
  function Off(x: bv64, sq: bv64, add: bv64): bv64
  {
    Put(Clear(x, sq), add)
  }

  /** What each kind of shift does to one bitboard. */
  lemma ForwardForms(x: bv64, f: bv64, t: bv64)
    ensures Forward(x, Slide(f, t)) == Off(x, f, t)
    ensures Forward(x, Lift(t)) == Clear(x, t)
    ensures Forward(x, Keep) == x
  {
  }

  /** A Normal move changes each bitboard by the shift `PieceShift` or `SideShift` gives it. */
  lemma NormalMoveShifts(b: PiecePosition, me: nat, mi: MoveInfo)
    requires Shaped(b) && me < 2 && mi.m.Normal?
    ensures forall s :: 0 <= s < 2 ==>
      MovedBoard(b, me, mi).sidePieces[s] == Forward(b.sidePieces[s], SideShift(me, mi, s))
    ensures forall s, pc :: 0 <= s < 2 && 0 <= pc < 6 ==>
      MovedBoard(b, me, mi).pieces[s][pc] == Forward(b.pieces[s][pc], PieceShift(me, mi, s, pc))
  {
    hide Forward;
    EffectAt(me, mi);
    ForwardAllAt(b, EffectOf(me, mi));
    forall x: bv64 ensures Forward(x, Keep) == x {
      ForwardForms(x, 0, 0);
    }
  }

  /**
   * A Normal move takes the moving piece off `from` and puts it on `to`, in its
   * side board and its piece board; the mover's other piece boards do not change.
   */
  lemma NormalMoverBoards(b: PiecePosition, me: nat, mi: MoveInfo)
    requires Shaped(b) && me < 2 && mi.m.Normal? && mi.piece < 6
    ensures MovedBoard(b, me, mi).sidePieces[me] == Off(b.sidePieces[me], mi.m.from, mi.m.to)
    ensures forall pc :: 0 <= pc < 6 ==>
      MovedBoard(b, me, mi).pieces[me][pc]
      == (if pc == mi.piece then Off(b.pieces[me][pc], mi.m.from, mi.m.to) else b.pieces[me][pc])
  {
    hide Forward, Off, Clear, Put;
    var f, t := mi.m.from, mi.m.to;
    NormalMoveShifts(b, me, mi);
    forall x: bv64 ensures Forward(x, Slide(f, t)) == Off(x, f, t) && Forward(x, Keep) == x {
      ForwardForms(x, f, t);
    }
  }

  /**
   * On a capture the opponent's side board and the captured piece's board lose
   * `to`; without one, and on the opponent's other piece boards, nothing changes.
   */
  lemma NormalCapturedBoards(b: PiecePosition, me: nat, mi: MoveInfo)
    requires Shaped(b) && me < 2 && mi.m.Normal?
    ensures MovedBoard(b, me, mi).sidePieces[Opposite(me)]
      == (if mi.capturedPiece.Some? then Clear(b.sidePieces[Opposite(me)], mi.m.to) else b.sidePieces[Opposite(me)])
    ensures forall pc :: 0 <= pc < 6 ==>
      MovedBoard(b, me, mi).pieces[Opposite(me)][pc]
      == (if mi.capturedPiece == Some(pc) then Clear(b.pieces[Opposite(me)][pc], mi.m.to) else b.pieces[Opposite(me)][pc])
  {
    hide Forward, Off, Clear, Put;
    var t := mi.m.to;
    NormalMoveShifts(b, me, mi);
    forall x: bv64 ensures Forward(x, Lift(t)) == Clear(x, t) && Forward(x, Keep) == x {
      ForwardForms(x, 0, t);
    }
  }

  /** The union of a row of bitboards. */
  function UnionOf(ps: seq<bv64>): bv64
  {
    if ps == [] then 0 else Put(ps[0], UnionOf(ps[1..]))
  }

  /** Side `s`'s board is the union of its piece boards. */
  predicate SideIsUnion(b: PiecePosition, s: nat)
    requires Shaped(b) && s < 2
  {
    b.sidePieces[s] == UnionOf(b.pieces[s])
  }

  /** Square `sq` is on no board of side `s` other than `pc`'s. */
  predicate OnlyOn(b: PiecePosition, s: nat, pc: nat, sq: bv64)
    requires Shaped(b) && s < 2
  {
    forall q :: 0 <= q < 6 && q != pc ==> Disjoint(b.pieces[s][q], sq)
  }

  /** No board of the row holds `sq`, so neither does their union. */
  lemma {:induction false} NoneHold(ps: seq<bv64>, sq: bv64)
    requires forall q :: 0 <= q < |ps| ==> Disjoint(ps[q], sq)
    ensures Disjoint(UnionOf(ps), sq)
  {
    if ps != [] {
      var u := UnionOf(ps[1..]);
      assert UnionOf(ps) == ps[0] | u;
      hide Disjoint, UnionOf;
      assert forall q :: 0 <= q < |ps| - 1 ==> ps[1..][q] == ps[q + 1];
      NoneHold(ps[1..], sq);
      UnionDisjoint(ps[0], u, sq);
    } else {
      assert UnionOf(ps) == 0;
    }
  }

  // The two sides of the identities below, each in plain bit operations.

  lemma PutOffForm(x: bv64, o: bv64, sq: bv64, add: bv64)
    ensures Put(Off(x, sq, add), o) == ((x & !sq) | add) | o
  {
  }

  lemma PutIntoOffForm(x: bv64, o: bv64, sq: bv64, add: bv64)
    ensures Put(x, Off(o, sq, add)) == x | ((o & !sq) | add)
  {
  }

  lemma OffPutForm(x: bv64, o: bv64, sq: bv64, add: bv64)
    ensures Off(Put(x, o), sq, add) == ((x | o) & !sq) | add
  {
  }

  /** `x` loses `sq` and gains `add`; `others`, which does not hold `sq`, joins it. */
  lemma OneOff(x: bv64, others: bv64, sq: bv64, add: bv64)
    requires Disjoint(others, sq)
    ensures Put(Off(x, sq, add), others) == Off(Put(x, others), sq, add)
  {
    hide Put, Off;
    PutOffForm(x, others, sq, add);
    OffPutForm(x, others, sq, add);
    JoinAfterMove(x, others, sq, add);
  }

  /** `x`, which does not hold `sq`, joins `others`, which loses `sq` and gains `add`. */
  lemma OneOn(x: bv64, others: bv64, sq: bv64, add: bv64)
    requires Disjoint(x, sq)
    ensures Put(x, Off(others, sq, add)) == Off(Put(x, others), sq, add)
  {
    hide Put, Off;
    PutIntoOffForm(x, others, sq, add);
    OffPutForm(x, others, sq, add);
    JoinBeforeMove(x, others, sq, add);
  }

  /**
   * One board of a row loses `sq` and gains `add`, the others stay as they were and
   * do not hold `sq`: the union loses `sq` and gains `add` in the same way.
   */
  lemma {:induction false} UnionMoved(ps: seq<bv64>, qs: seq<bv64>, pc: nat, sq: bv64, add: bv64)
    requires |qs| == |ps| && pc < |ps|
    requires qs[pc] == Off(ps[pc], sq, add)
    requires forall q :: 0 <= q < |ps| && q != pc ==> qs[q] == ps[q] && Disjoint(ps[q], sq)
    ensures UnionOf(qs) == Off(UnionOf(ps), sq, add)
  {
    hide Disjoint, Put, Off;
    var u, v := UnionOf(ps[1..]), UnionOf(qs[1..]);
    assert UnionOf(ps) == Put(ps[0], u);
    assert UnionOf(qs) == Put(qs[0], v);
    hide UnionOf;
    assert forall q :: 0 <= q < |ps| - 1 ==> ps[1..][q] == ps[q + 1] && qs[1..][q] == qs[q + 1];
    if pc == 0 {
      assert qs[1..] == ps[1..];
      NoneHold(ps[1..], sq);
      OneOff(ps[0], u, sq, add);
    } else {
      UnionMoved(ps[1..], qs[1..], pc - 1, sq, add);
      OneOn(ps[0], u, sq, add);
    }
  }

  lemma ClearIsOff(x: bv64, sq: bv64)
    ensures Clear(x, sq) == Off(x, sq, 0)
  {
  }

  /** The mover's side board stays the union of its piece boards. */
  lemma MoverKeepsUnion(b: PiecePosition, me: nat, mi: MoveInfo)
    requires Shaped(b) && me < 2 && mi.m.Normal? && mi.piece < 6
    requires SideIsUnion(b, me) && OnlyOn(b, me, mi.piece, mi.m.from)
    ensures SideIsUnion(MovedBoard(b, me, mi), me)
  {
    hide Off, Clear, Put;
    var r := MovedBoard(b, me, mi);
    NormalMoverBoards(b, me, mi);
    UnionMoved(b.pieces[me], r.pieces[me], mi.piece, mi.m.from, mi.m.to);
  }

  /** Two rows that agree board by board are the same row. */
  lemma SameRow(ps: seq<bv64>, qs: seq<bv64>)
    requires |ps| == |qs| && forall q :: 0 <= q < |ps| ==> qs[q] == ps[q]
    ensures qs == ps
  {
  }

  /** The opponent's side board stays the union of its piece boards. */
  lemma CapturedKeepsUnion(b: PiecePosition, me: nat, mi: MoveInfo)
    requires Shaped(b) && me < 2 && mi.m.Normal? && CapturedOk(mi)
    requires SideIsUnion(b, Opposite(me))
    requires mi.capturedPiece.Some? ==> OnlyOn(b, Opposite(me), mi.capturedPiece.value, mi.m.to)
    ensures SideIsUnion(MovedBoard(b, me, mi), Opposite(me))
  {
    hide Off, Clear, Put, UnionOf;
    var r := MovedBoard(b, me, mi);
    var opp, t := Opposite(me), mi.m.to;
    NormalCapturedBoards(b, me, mi);
    if mi.capturedPiece.Some? {
      var cap := mi.capturedPiece.value;
      ClearIsOff(b.pieces[opp][cap], t);
      ClearIsOff(b.sidePieces[opp], t);
      UnionMoved(b.pieces[opp], r.pieces[opp], cap, t, 0);
    } else {
      SameRow(b.pieces[opp], r.pieces[opp]);
    }
  }

  /**
   * So a Normal move keeps each side board the union of its piece boards, when the
   * moving piece's square holds no other own piece and the captured piece's square
   * no other opponent piece.
   */
  lemma NormalMoveKeepsUnion(b: PiecePosition, me: nat, mi: MoveInfo)
    requires Shaped(b) && me < 2 && mi.m.Normal? && mi.piece < 6 && CapturedOk(mi)
    requires SideIsUnion(b, WHITE) && SideIsUnion(b, BLACK)
    requires OnlyOn(b, me, mi.piece, mi.m.from)
    requires mi.capturedPiece.Some? ==> OnlyOn(b, Opposite(me), mi.capturedPiece.value, mi.m.to)
    ensures SideIsUnion(MovedBoard(b, me, mi), WHITE) && SideIsUnion(MovedBoard(b, me, mi), BLACK)
  {
    MoverKeepsUnion(b, me, mi);
    CapturedKeepsUnion(b, me, mi);
  }

  // ---- The hash of a quiet move ----

  /**
   * A quiet move (a Normal move of a knight, bishop, queen or pawn that captures
   * nothing and is no double push, with no en-passant square before it) changes the
   * hash by the moving piece's keys on its two squares and the key of the side that
   * moves next, and by nothing else: the en-passant and castling keys stay out.
   */
  lemma QuietMoveHash(p: PositionValue, mi: MoveInfo)
    requires Applicable(p, mi) && mi.m.Normal? && mi.capturedPiece.None?
    requires mi.piece != KING && mi.piece != ROOK && p.state.enPassant == NONE
    requires !(mi.piece == PAWN && PawnMovingTwoSquares(p.board, p.sideToMove, mi.m.from, mi.m.to))
    ensures var k, me := p.keys, p.sideToMove;
      NextHash(p, mi)
      == Toggle(Toggle(Toggle(p.zobrist,
           PieceKey(k, me, mi.piece, TrailingZeros(mi.m.from))),
           PieceKey(k, me, mi.piece, TrailingZeros(mi.m.to))),
           SideKey(k, Opposite(me)))
  {
    hide Toggle;
    OnlyDoublePushEnPassant(p.board, p.sideToMove, mi);
    assert !AnyEvent(Events(p.board, p.sideToMove, mi));
  }

  /**
   * A pawn's double push with no en-passant square before it also brings in the keys
   * of the old (NONE) and the new en-passant square.
   */
  lemma DoublePushHash(p: PositionValue, file: nat)
    requires file < 8 && WellFormed(p) && p.state.enPassant == NONE
    requires p.board.pieces[p.sideToMove][PAWN] & PawnStart(p.sideToMove, file) != 0
    requires Applicable(p, MoveInfo(Normal(PawnStart(p.sideToMove, file), DoublePushTarget(p.sideToMove, file)), PAWN, None))
    ensures var k, me := p.keys, p.sideToMove;
      var mi := MoveInfo(Normal(PawnStart(me, file), DoublePushTarget(me, file)), PAWN, None);
      NextHash(p, mi)
      == Toggle(Toggle(Toggle(Toggle(Toggle(p.zobrist,
           PieceKey(k, me, PAWN, TrailingZeros(PawnStart(me, file)))),
           PieceKey(k, me, PAWN, TrailingZeros(DoublePushTarget(me, file)))),
           EnPassantKey(k, NONE)),
           EnPassantKey(k, PassedOver(me, file))),
           SideKey(k, Opposite(me)))
  {
    hide Toggle;
    var me := p.sideToMove;
    var mi := MoveInfo(Normal(PawnStart(me, file), DoublePushTarget(me, file)), PAWN, None);
    DoublePushEnPassant(p.board, me, file, None);
    DoublePushSquares(me, file);
    assert !AnyEvent(Events(p.board, me, mi));
  }
}
