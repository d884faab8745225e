/**
 * The board updates `apply_move` and `undo_move` make, written one update at a time
 * as the private helpers of board/models.rs make them, and proved equal to the
 * shift description `Models.MovedBoard` / `Models.UnmovedBoard`.
 */
module Placement {
  import opened Wrappers
  import opened Models
  import opened MakeUnmake

  // ---- The helpers ----

  /** `remove_piece` on the board: `pieces[side][piece] &= !sq`. */
  function Removed(b: PiecePosition, side: nat, piece: nat, sq: bv64): (r: PiecePosition)
    requires Shaped(b) && side < 2 && piece < 6
    ensures Shaped(r)
  {
    WithPiece(b, side, piece, Clear(b.pieces[side][piece], sq))
  }

  /** `add_piece` on the board (and the `|=` writes of `undo_move`): `pieces[side][piece] |= sq`. */
  function Added(b: PiecePosition, side: nat, piece: nat, sq: bv64): (r: PiecePosition)
    requires Shaped(b) && side < 2 && piece < 6
    ensures Shaped(r)
  {
    WithPiece(b, side, piece, Put(b.pieces[side][piece], sq))
  }

  /** `set_side_pieces_from_move`: `me` clears `f`, the opponent clears `t` on a capture, `me` sets `t`. */
  function SidesFromMove(b: PiecePosition, me: nat, f: bv64, t: bv64, isCapture: bool): (r: PiecePosition)
    requires Shaped(b) && me < 2
    ensures Shaped(r)
  {
    var b1 := WithSide(b, me, Clear(b.sidePieces[me], f));
    var b2 := if isCapture then WithSide(b1, Opposite(me), Clear(b1.sidePieces[Opposite(me)], t)) else b1;
    WithSide(b2, me, Put(b2.sidePieces[me], t))
  }

  /** `set_side_pieces_back_from_move`: `me` clears `t`, the opponent sets `t` back on a capture, `me` sets `f`. */
  function SidesBackFromMove(b: PiecePosition, me: nat, t: bv64, f: bv64, isCapture: bool): (r: PiecePosition)
    requires Shaped(b) && me < 2
    ensures Shaped(r)
  {
    var b1 := WithSide(b, me, Clear(b.sidePieces[me], t));
    var b2 := if isCapture then WithSide(b1, Opposite(me), Put(b1.sidePieces[Opposite(me)], t)) else b1;
    WithSide(b2, me, Put(b2.sidePieces[me], f))
  }

  /** `set_side_pieces_from_enpassant`: `me` clears `f`, the opponent clears `sq`, `me` sets `t`. */
  function SidesFromEnPassant(b: PiecePosition, me: nat, f: bv64, t: bv64, sq: bv64): (r: PiecePosition)
    requires Shaped(b) && me < 2
    ensures Shaped(r)
  {
    var b1 := WithSide(b, me, Clear(b.sidePieces[me], f));
    var b2 := WithSide(b1, Opposite(me), Clear(b1.sidePieces[Opposite(me)], sq));
    WithSide(b2, me, Put(b2.sidePieces[me], t))
  }

  /** `set_side_pieces_back_from_enpassant`: `me` clears `t`, the opponent sets `sq`, `me` sets `f`. */
  function SidesBackFromEnPassant(b: PiecePosition, me: nat, t: bv64, f: bv64, sq: bv64): (r: PiecePosition)
    requires Shaped(b) && me < 2
    ensures Shaped(r)
  {
    var b1 := WithSide(b, me, Clear(b.sidePieces[me], t));
    var b2 := WithSide(b1, Opposite(me), Put(b1.sidePieces[Opposite(me)], sq));
    WithSide(b2, me, Put(b2.sidePieces[me], f))
  }

  /** `move_piece_from_move`: the piece leaves `f` and lands on `t`; a captured piece leaves `t`. */
  function PiecesFromMove(b: PiecePosition, me: nat, piece: nat, captured: Option<nat>, f: bv64, t: bv64): (r: PiecePosition)
    requires Shaped(b) && me < 2 && piece < 6 && (captured.Some? ==> captured.value < 6)
    ensures Shaped(r)
  {
    var b1 := Added(Removed(b, me, piece, f), me, piece, t);
    if captured.Some? then Removed(b1, Opposite(me), captured.value, t) else b1
  }

  /** `promote_from_move`: the pawn leaves `f`, the piece `q` lands on `t`; a captured piece leaves `t`. */
  function PiecesFromPromotion(b: PiecePosition, me: nat, q: nat, captured: Option<nat>, f: bv64, t: bv64): (r: PiecePosition)
    requires Shaped(b) && me < 2 && q < 6 && (captured.Some? ==> captured.value < 6)
    ensures Shaped(r)
  {
    var b1 := Added(Removed(b, me, PAWN, f), me, q, t);
    if captured.Some? then Removed(b1, Opposite(me), captured.value, t) else b1
  }

  /** The en-passant arm of `apply_move`: own pawn from `f` to `t`, the opponent's pawn off `sq`. */
  function PiecesFromEnPassant(b: PiecePosition, me: nat, f: bv64, t: bv64, sq: bv64): (r: PiecePosition)
    requires Shaped(b) && me < 2
    ensures Shaped(r)
  {
    Removed(Added(Removed(b, me, PAWN, f), me, PAWN, t), Opposite(me), PAWN, sq)
  }

  /** `castle`: the king from `kf` to `kt`, then the rook from `rf` to `rt`, side board first each time. */
  function Castled(b: PiecePosition, me: nat, kf: bv64, kt: bv64, rf: bv64, rt: bv64): (r: PiecePosition)
    requires Shaped(b) && me < 2
    ensures Shaped(r)
  {
    var b1 := Added(Removed(SidesFromMove(b, me, kf, kt, false), me, KING, kf), me, KING, kt);
    Added(Removed(SidesFromMove(b1, me, rf, rt, false), me, ROOK, rf), me, ROOK, rt)
  }

  /** The board part of `apply_move` as it runs, `me` to move. */
  function Placed(b: PiecePosition, me: nat, mi: MoveInfo): (r: PiecePosition)
    requires Shaped(b) && me < 2 && PiecesInRange(mi)
    ensures Shaped(r)
  {
    match mi.m
    case Normal(f, t) =>
      PiecesFromMove(SidesFromMove(b, me, f, t, mi.capturedPiece.Some?), me, mi.piece, mi.capturedPiece, f, t)
    case Promotion(f, t, q) =>
      PiecesFromPromotion(SidesFromMove(b, me, f, t, mi.capturedPiece.Some?), me, q, mi.capturedPiece, f, t)
    case EnPassant(f, t) =>
      PiecesFromEnPassant(SidesFromEnPassant(b, me, f, t, Behind(me, t)), me, f, t, Behind(me, t))
    case Castle(c) =>
      match CastleSquares(c)
      case Some((kf, kt, rf, rt)) => Castled(b, me, kf, kt, rf, rt)
      case None => b
  }

  /** The board part of `undo_move` as it runs, `me` being the side that made the move. */
  function Replaced(b: PiecePosition, me: nat, mi: MoveInfo): (r: PiecePosition)
    requires Shaped(b) && me < 2 && PiecesInRange(mi)
    ensures Shaped(r)
  {
    match mi.m
    case Normal(f, t) => NormalPiecesBack(SidesBackFromMove(b, me, t, f, mi.capturedPiece.Some?), me, mi)
    case Promotion(f, t, _) => PromotionPiecesBack(SidesBackFromMove(b, me, t, f, mi.capturedPiece.Some?), me, mi)
    case EnPassant(f, t) => EnPassantPiecesBack(SidesBackFromEnPassant(b, me, t, f, Behind(me, t)), me, f, t, Behind(me, t))
    case Castle(c) =>
      match CastleSquares(c)
      case Some((kf, kt, rf, rt)) => CastledBack(b, me, kf, kt, rf, rt)
      case None => b
  }

  /** The piece-board writes of the Normal arm of `undo_move`. */
  function NormalPiecesBack(b: PiecePosition, me: nat, mi: MoveInfo): (r: PiecePosition)
    requires Shaped(b) && me < 2 && PiecesInRange(mi) && mi.m.Normal?
    ensures Shaped(r)
  {
    var b1 := Added(Removed(b, me, mi.piece, mi.m.to), me, mi.piece, mi.m.from);
    if mi.capturedPiece.Some? then Added(b1, Opposite(me), mi.capturedPiece.value, mi.m.to) else b1
  }

  /** The piece-board writes of the Promotion arm of `undo_move`. */
  function PromotionPiecesBack(b: PiecePosition, me: nat, mi: MoveInfo): (r: PiecePosition)
    requires Shaped(b) && me < 2 && PiecesInRange(mi) && mi.m.Promotion?
    ensures Shaped(r)
  {
    var b1 := Added(Removed(b, me, mi.m.promoted, mi.m.to), me, PAWN, mi.m.from);
    if mi.capturedPiece.Some? then Added(b1, Opposite(me), mi.capturedPiece.value, mi.m.to) else b1
  }

  /** The piece-board writes of the en-passant arm of `undo_move`. */
  function EnPassantPiecesBack(b: PiecePosition, me: nat, f: bv64, t: bv64, sq: bv64): (r: PiecePosition)
    requires Shaped(b) && me < 2
    ensures Shaped(r)
  {
    Added(Added(Removed(b, me, PAWN, t), me, PAWN, f), Opposite(me), PAWN, sq)
  }

  /** The castle arms of `undo_move`: both side-board moves back, then the king's and the rook's boards. */
  function CastledBack(b: PiecePosition, me: nat, kf: bv64, kt: bv64, rf: bv64, rt: bv64): (r: PiecePosition)
    requires Shaped(b) && me < 2
    ensures Shaped(r)
  {
    var b1 := SidesBackFromMove(SidesBackFromMove(b, me, kt, kf, false), me, rt, rf, false);
    Added(Removed(Added(Removed(b1, me, KING, kt), me, KING, kf), me, ROOK, rt), me, ROOK, rf)
  }

  // ---- Bitboard by bitboard: apply ----

  lemma CaptureSideCell(x0: bv64, x1: bv64, me: nat, mi: MoveInfo, s: nat)
    requires me < 2 && s < 2 && (mi.m.Normal? || mi.m.Promotion?)
    requires s == me ==> x1 == Put(Clear(x0, mi.m.from), mi.m.to)
    requires s != me ==> x1 == if mi.capturedPiece.Some? then Clear(x0, mi.m.to) else x0
    ensures x1 == Forward(Forward(x0, SideShift(me, mi, s)), SideRookShift(me, mi, s))
  {}

  lemma NormalPieceCell(x0: bv64, x1: bv64, me: nat, mi: MoveInfo, s: nat, pc: nat)
    requires me < 2 && s < 2 && pc < 6 && mi.m.Normal?
    requires s == me && pc == mi.piece ==> x1 == Put(Clear(x0, mi.m.from), mi.m.to)
    requires s != me && mi.capturedPiece == Some(pc) ==> x1 == Clear(x0, mi.m.to)
    requires (s != me || pc != mi.piece) && (s == me || mi.capturedPiece != Some(pc)) ==> x1 == x0
    ensures x1 == Forward(x0, PieceShift(me, mi, s, pc))
  {}

  lemma PromotionPieceCell(x0: bv64, x1: bv64, me: nat, mi: MoveInfo, s: nat, pc: nat)
    requires me < 2 && s < 2 && pc < 6 && mi.m.Promotion?
    requires s == me && pc == PAWN && mi.m.promoted == PAWN ==> x1 == Put(Clear(x0, mi.m.from), mi.m.to)
    requires s == me && pc == PAWN && mi.m.promoted != PAWN ==> x1 == Clear(x0, mi.m.from)
    requires s == me && pc != PAWN && pc == mi.m.promoted ==> x1 == Put(x0, mi.m.to)
    requires s == me && pc != PAWN && pc != mi.m.promoted ==> x1 == x0
    requires s != me ==> x1 == if mi.capturedPiece == Some(pc) then Clear(x0, mi.m.to) else x0
    ensures x1 == Forward(x0, PieceShift(me, mi, s, pc))
  {}

  lemma EnPassantSideCell(x0: bv64, x1: bv64, me: nat, mi: MoveInfo, s: nat)
    requires me < 2 && s < 2 && mi.m.EnPassant?
    requires s == me ==> x1 == Put(Clear(x0, mi.m.from), mi.m.to)
    requires s != me ==> x1 == Clear(x0, Behind(me, mi.m.to))
    ensures x1 == Forward(Forward(x0, SideShift(me, mi, s)), SideRookShift(me, mi, s))
  {}

  lemma EnPassantPieceCell(x0: bv64, x1: bv64, me: nat, mi: MoveInfo, s: nat, pc: nat)
    requires me < 2 && s < 2 && pc < 6 && mi.m.EnPassant?
    requires pc == PAWN && s == me ==> x1 == Put(Clear(x0, mi.m.from), mi.m.to)
    requires pc == PAWN && s != me ==> x1 == Clear(x0, Behind(me, mi.m.to))
    requires pc != PAWN ==> x1 == x0
    ensures x1 == Forward(x0, PieceShift(me, mi, s, pc))
  {}

  lemma CastleSideCell(x0: bv64, x1: bv64, me: nat, mi: MoveInfo, s: nat, kf: bv64, kt: bv64, rf: bv64, rt: bv64)
    requires me < 2 && s < 2 && mi.m.Castle? && CastleSquares(mi.m.castling) == Some((kf, kt, rf, rt))
    requires s == me ==> x1 == Put(Clear(Put(Clear(x0, kf), kt), rf), rt)
    requires s != me ==> x1 == x0
    ensures x1 == Forward(Forward(x0, SideShift(me, mi, s)), SideRookShift(me, mi, s))
  {}

  lemma CastlePieceCell(x0: bv64, x1: bv64, me: nat, mi: MoveInfo, s: nat, pc: nat, kf: bv64, kt: bv64, rf: bv64, rt: bv64)
    requires me < 2 && s < 2 && pc < 6 && mi.m.Castle? && CastleSquares(mi.m.castling) == Some((kf, kt, rf, rt))
    requires s == me && pc == KING ==> x1 == Put(Clear(x0, kf), kt)
    requires s == me && pc == ROOK ==> x1 == Put(Clear(x0, rf), rt)
    requires s != me || (pc != KING && pc != ROOK) ==> x1 == x0
    ensures x1 == Forward(x0, PieceShift(me, mi, s, pc))
  {}

  /** What the side-board helpers of a Normal or Promotion move do to each side board. */
  lemma CaptureSides(b: PiecePosition, me: nat, mi: MoveInfo)
    requires Shaped(b) && me < 2 && (mi.m.Normal? || mi.m.Promotion?)
    ensures var b1 := SidesFromMove(b, me, mi.m.from, mi.m.to, mi.capturedPiece.Some?);
      && b1.pieces == b.pieces
      && forall s :: 0 <= s < 2 ==>
        b1.sidePieces[s] == Forward(Forward(b.sidePieces[s], SideShift(me, mi, s)), SideRookShift(me, mi, s))
  {
    var b1 := SidesFromMove(b, me, mi.m.from, mi.m.to, mi.capturedPiece.Some?);
    forall s | 0 <= s < 2
      ensures b1.sidePieces[s] == Forward(Forward(b.sidePieces[s], SideShift(me, mi, s)), SideRookShift(me, mi, s))
    {
      CaptureSideCell(b.sidePieces[s], b1.sidePieces[s], me, mi, s);
    }
  }

  lemma NormalPieces(b: PiecePosition, me: nat, mi: MoveInfo)
    requires Shaped(b) && me < 2 && PiecesInRange(mi) && mi.m.Normal?
    ensures var b1 := PiecesFromMove(b, me, mi.piece, mi.capturedPiece, mi.m.from, mi.m.to);
      && b1.sidePieces == b.sidePieces
      && forall s, pc :: 0 <= s < 2 && 0 <= pc < 6 ==> b1.pieces[s][pc] == Forward(b.pieces[s][pc], PieceShift(me, mi, s, pc))
  {
    var b1 := PiecesFromMove(b, me, mi.piece, mi.capturedPiece, mi.m.from, mi.m.to);
    forall s, pc | 0 <= s < 2 && 0 <= pc < 6
      ensures b1.pieces[s][pc] == Forward(b.pieces[s][pc], PieceShift(me, mi, s, pc))
    {
      NormalPieceCell(b.pieces[s][pc], b1.pieces[s][pc], me, mi, s, pc);
    }
  }

  lemma PromotionPieces(b: PiecePosition, me: nat, mi: MoveInfo)
    requires Shaped(b) && me < 2 && PiecesInRange(mi) && mi.m.Promotion?
    ensures var b1 := PiecesFromPromotion(b, me, mi.m.promoted, mi.capturedPiece, mi.m.from, mi.m.to);
      && b1.sidePieces == b.sidePieces
      && forall s, pc :: 0 <= s < 2 && 0 <= pc < 6 ==> b1.pieces[s][pc] == Forward(b.pieces[s][pc], PieceShift(me, mi, s, pc))
  {
    var b1 := PiecesFromPromotion(b, me, mi.m.promoted, mi.capturedPiece, mi.m.from, mi.m.to);
    forall s, pc | 0 <= s < 2 && 0 <= pc < 6
      ensures b1.pieces[s][pc] == Forward(b.pieces[s][pc], PieceShift(me, mi, s, pc))
    {
      PromotionPieceCell(b.pieces[s][pc], b1.pieces[s][pc], me, mi, s, pc);
    }
  }

  lemma EnPassantSides(b: PiecePosition, me: nat, mi: MoveInfo)
    requires Shaped(b) && me < 2 && mi.m.EnPassant?
    ensures var b1 := SidesFromEnPassant(b, me, mi.m.from, mi.m.to, Behind(me, mi.m.to));
      && b1.pieces == b.pieces
      && forall s :: 0 <= s < 2 ==>
        b1.sidePieces[s] == Forward(Forward(b.sidePieces[s], SideShift(me, mi, s)), SideRookShift(me, mi, s))
  {
    var b1 := SidesFromEnPassant(b, me, mi.m.from, mi.m.to, Behind(me, mi.m.to));
    forall s | 0 <= s < 2
      ensures b1.sidePieces[s] == Forward(Forward(b.sidePieces[s], SideShift(me, mi, s)), SideRookShift(me, mi, s))
    {
      EnPassantSideCell(b.sidePieces[s], b1.sidePieces[s], me, mi, s);
    }
  }

  lemma EnPassantPieces(b: PiecePosition, me: nat, mi: MoveInfo)
    requires Shaped(b) && me < 2 && mi.m.EnPassant?
    ensures var b1 := PiecesFromEnPassant(b, me, mi.m.from, mi.m.to, Behind(me, mi.m.to));
      && b1.sidePieces == b.sidePieces
      && forall s, pc :: 0 <= s < 2 && 0 <= pc < 6 ==> b1.pieces[s][pc] == Forward(b.pieces[s][pc], PieceShift(me, mi, s, pc))
  {
    var b1 := PiecesFromEnPassant(b, me, mi.m.from, mi.m.to, Behind(me, mi.m.to));
    forall s, pc | 0 <= s < 2 && 0 <= pc < 6
      ensures b1.pieces[s][pc] == Forward(b.pieces[s][pc], PieceShift(me, mi, s, pc))
    {
      EnPassantPieceCell(b.pieces[s][pc], b1.pieces[s][pc], me, mi, s, pc);
    }
  }

  lemma CastleCells(b: PiecePosition, me: nat, mi: MoveInfo, kf: bv64, kt: bv64, rf: bv64, rt: bv64)
    requires Shaped(b) && me < 2 && mi.m.Castle? && CastleSquares(mi.m.castling) == Some((kf, kt, rf, rt))
    ensures var b1 := Castled(b, me, kf, kt, rf, rt);
      && (forall s :: 0 <= s < 2 ==>
        b1.sidePieces[s] == Forward(Forward(b.sidePieces[s], SideShift(me, mi, s)), SideRookShift(me, mi, s)))
      && forall s, pc :: 0 <= s < 2 && 0 <= pc < 6 ==> b1.pieces[s][pc] == Forward(b.pieces[s][pc], PieceShift(me, mi, s, pc))
  {
    var b1 := Castled(b, me, kf, kt, rf, rt);
    forall s | 0 <= s < 2
      ensures b1.sidePieces[s] == Forward(Forward(b.sidePieces[s], SideShift(me, mi, s)), SideRookShift(me, mi, s))
    {
      CastleSideCell(b.sidePieces[s], b1.sidePieces[s], me, mi, s, kf, kt, rf, rt);
    }
    forall s, pc | 0 <= s < 2 && 0 <= pc < 6
      ensures b1.pieces[s][pc] == Forward(b.pieces[s][pc], PieceShift(me, mi, s, pc))
    {
      CastlePieceCell(b.pieces[s][pc], b1.pieces[s][pc], me, mi, s, pc, kf, kt, rf, rt);
    }
  }

  /** A castle with a castling value other than the four single rights moves nothing. */
  lemma NoCastleCells(b: PiecePosition, me: nat, mi: MoveInfo)
    requires Shaped(b) && me < 2 && mi.m.Castle? && CastleSquares(mi.m.castling).None?
    ensures forall s :: 0 <= s < 2 ==>
      b.sidePieces[s] == Forward(Forward(b.sidePieces[s], SideShift(me, mi, s)), SideRookShift(me, mi, s))
    ensures forall s, pc :: 0 <= s < 2 && 0 <= pc < 6 ==> b.pieces[s][pc] == Forward(b.pieces[s][pc], PieceShift(me, mi, s, pc))
  {}

  lemma NormalPlaced(b: PiecePosition, me: nat, mi: MoveInfo)
    requires Shaped(b) && me < 2 && PiecesInRange(mi) && mi.m.Normal?
    ensures Placed(b, me, mi) == MovedBoard(b, me, mi)
  {
    CaptureSides(b, me, mi);
    NormalPieces(SidesFromMove(b, me, mi.m.from, mi.m.to, mi.capturedPiece.Some?), me, mi);
    MovedBoardCells(b, me, mi, Placed(b, me, mi));
  }

  lemma PromotionPlaced(b: PiecePosition, me: nat, mi: MoveInfo)
    requires Shaped(b) && me < 2 && PiecesInRange(mi) && mi.m.Promotion?
    ensures Placed(b, me, mi) == MovedBoard(b, me, mi)
  {
    CaptureSides(b, me, mi);
    PromotionPieces(SidesFromMove(b, me, mi.m.from, mi.m.to, mi.capturedPiece.Some?), me, mi);
    MovedBoardCells(b, me, mi, Placed(b, me, mi));
  }

  lemma EnPassantPlaced(b: PiecePosition, me: nat, mi: MoveInfo)
    requires Shaped(b) && me < 2 && mi.m.EnPassant?
    ensures Placed(b, me, mi) == MovedBoard(b, me, mi)
  {
    EnPassantSides(b, me, mi);
    EnPassantPieces(SidesFromEnPassant(b, me, mi.m.from, mi.m.to, Behind(me, mi.m.to)), me, mi);
    MovedBoardCells(b, me, mi, Placed(b, me, mi));
  }

  lemma CastlePlaced(b: PiecePosition, me: nat, mi: MoveInfo, kf: bv64, kt: bv64, rf: bv64, rt: bv64)
    requires Shaped(b) && me < 2 && mi.m.Castle? && CastleSquares(mi.m.castling) == Some((kf, kt, rf, rt))
    ensures Placed(b, me, mi) == MovedBoard(b, me, mi)
  {
    CastleCells(b, me, mi, kf, kt, rf, rt);
    MovedBoardCells(b, me, mi, Castled(b, me, kf, kt, rf, rt));
  }

  lemma NoCastlePlaced(b: PiecePosition, me: nat, mi: MoveInfo)
    requires Shaped(b) && me < 2 && mi.m.Castle? && CastleSquares(mi.m.castling).None?
    ensures Placed(b, me, mi) == MovedBoard(b, me, mi)
  {
    NoCastleCells(b, me, mi);
    MovedBoardCells(b, me, mi, b);
  }

  /** The step-by-step board updates of `apply_move` are the shift description `MovedBoard`. */
  lemma PlacedMoves(b: PiecePosition, me: nat, mi: MoveInfo)
    requires Shaped(b) && me < 2 && PiecesInRange(mi)
    ensures Placed(b, me, mi) == MovedBoard(b, me, mi)
  {
    match mi.m
    case Normal(_, _) => NormalPlaced(b, me, mi);
    case Promotion(_, _, _) => PromotionPlaced(b, me, mi);
    case EnPassant(_, _) => EnPassantPlaced(b, me, mi);
    case Castle(c) =>
      match CastleSquares(c)
      case Some((kf, kt, rf, rt)) => CastlePlaced(b, me, mi, kf, kt, rf, rt);
      case None => NoCastlePlaced(b, me, mi);
  }

  // ---- Bitboard by bitboard: undo ----

  lemma CaptureSideBackCell(x0: bv64, x1: bv64, me: nat, mi: MoveInfo, s: nat)
    requires me < 2 && s < 2 && (mi.m.Normal? || mi.m.Promotion?)
    requires s == me ==> x1 == Put(Clear(x0, mi.m.to), mi.m.from)
    requires s != me ==> x1 == if mi.capturedPiece.Some? then Put(x0, mi.m.to) else x0
    ensures x1 == Backward(Backward(x0, SideShift(me, mi, s)), SideRookShift(me, mi, s))
  {}

  lemma NormalPieceBackCell(x0: bv64, x1: bv64, me: nat, mi: MoveInfo, s: nat, pc: nat)
    requires me < 2 && s < 2 && pc < 6 && mi.m.Normal?
    requires s == me && pc == mi.piece ==> x1 == Put(Clear(x0, mi.m.to), mi.m.from)
    requires s != me && mi.capturedPiece == Some(pc) ==> x1 == Put(x0, mi.m.to)
    requires (s != me || pc != mi.piece) && (s == me || mi.capturedPiece != Some(pc)) ==> x1 == x0
    ensures x1 == Backward(x0, PieceShift(me, mi, s, pc))
  {}

  lemma PromotionPieceBackCell(x0: bv64, x1: bv64, me: nat, mi: MoveInfo, s: nat, pc: nat)
    requires me < 2 && s < 2 && pc < 6 && mi.m.Promotion?
    requires s == me && pc == PAWN && mi.m.promoted == PAWN ==> x1 == Put(Clear(x0, mi.m.to), mi.m.from)
    requires s == me && pc == PAWN && mi.m.promoted != PAWN ==> x1 == Put(x0, mi.m.from)
    requires s == me && pc != PAWN && pc == mi.m.promoted ==> x1 == Clear(x0, mi.m.to)
    requires s == me && pc != PAWN && pc != mi.m.promoted ==> x1 == x0
    requires s != me ==> x1 == if mi.capturedPiece == Some(pc) then Put(x0, mi.m.to) else x0
    ensures x1 == Backward(x0, PieceShift(me, mi, s, pc))
  {}

  lemma EnPassantSideBackCell(x0: bv64, x1: bv64, me: nat, mi: MoveInfo, s: nat)
    requires me < 2 && s < 2 && mi.m.EnPassant?
    requires s == me ==> x1 == Put(Clear(x0, mi.m.to), mi.m.from)
    requires s != me ==> x1 == Put(x0, Behind(me, mi.m.to))
    ensures x1 == Backward(Backward(x0, SideShift(me, mi, s)), SideRookShift(me, mi, s))
  {}

  lemma EnPassantPieceBackCell(x0: bv64, x1: bv64, me: nat, mi: MoveInfo, s: nat, pc: nat)
    requires me < 2 && s < 2 && pc < 6 && mi.m.EnPassant?
    requires pc == PAWN && s == me ==> x1 == Put(Clear(x0, mi.m.to), mi.m.from)
    requires pc == PAWN && s != me ==> x1 == Put(x0, Behind(me, mi.m.to))
    requires pc != PAWN ==> x1 == x0
    ensures x1 == Backward(x0, PieceShift(me, mi, s, pc))
  {}

  lemma CastleSideBackCell(x0: bv64, x1: bv64, me: nat, mi: MoveInfo, s: nat, kf: bv64, kt: bv64, rf: bv64, rt: bv64)
    requires me < 2 && s < 2 && mi.m.Castle? && CastleSquares(mi.m.castling) == Some((kf, kt, rf, rt))
    requires s == me ==> x1 == Put(Clear(Put(Clear(x0, kt), kf), rt), rf)
    requires s != me ==> x1 == x0
    ensures x1 == Backward(Backward(x0, SideShift(me, mi, s)), SideRookShift(me, mi, s))
  {}

  lemma CastlePieceBackCell(x0: bv64, x1: bv64, me: nat, mi: MoveInfo, s: nat, pc: nat, kf: bv64, kt: bv64, rf: bv64, rt: bv64)
    requires me < 2 && s < 2 && pc < 6 && mi.m.Castle? && CastleSquares(mi.m.castling) == Some((kf, kt, rf, rt))
    requires s == me && pc == KING ==> x1 == Put(Clear(x0, kt), kf)
    requires s == me && pc == ROOK ==> x1 == Put(Clear(x0, rt), rf)
    requires s != me || (pc != KING && pc != ROOK) ==> x1 == x0
    ensures x1 == Backward(x0, PieceShift(me, mi, s, pc))
  {}

  lemma CaptureSidesBack(b: PiecePosition, me: nat, mi: MoveInfo)
    requires Shaped(b) && me < 2 && (mi.m.Normal? || mi.m.Promotion?)
    ensures var b1 := SidesBackFromMove(b, me, mi.m.to, mi.m.from, mi.capturedPiece.Some?);
      && b1.pieces == b.pieces
      && forall s :: 0 <= s < 2 ==>
        b1.sidePieces[s] == Backward(Backward(b.sidePieces[s], SideShift(me, mi, s)), SideRookShift(me, mi, s))
  {
    var b1 := SidesBackFromMove(b, me, mi.m.to, mi.m.from, mi.capturedPiece.Some?);
    forall s | 0 <= s < 2
      ensures b1.sidePieces[s] == Backward(Backward(b.sidePieces[s], SideShift(me, mi, s)), SideRookShift(me, mi, s))
    {
      CaptureSideBackCell(b.sidePieces[s], b1.sidePieces[s], me, mi, s);
    }
  }

  lemma NormalPiecesBackCells(b: PiecePosition, me: nat, mi: MoveInfo)
    requires Shaped(b) && me < 2 && PiecesInRange(mi) && mi.m.Normal?
    ensures var b1 := NormalPiecesBack(b, me, mi);
      && b1.sidePieces == b.sidePieces
      && forall s, pc :: 0 <= s < 2 && 0 <= pc < 6 ==> b1.pieces[s][pc] == Backward(b.pieces[s][pc], PieceShift(me, mi, s, pc))
  {
    var b1 := NormalPiecesBack(b, me, mi);
    forall s, pc | 0 <= s < 2 && 0 <= pc < 6
      ensures b1.pieces[s][pc] == Backward(b.pieces[s][pc], PieceShift(me, mi, s, pc))
    {
      NormalPieceBackCell(b.pieces[s][pc], b1.pieces[s][pc], me, mi, s, pc);
    }
  }

  lemma PromotionPiecesBackCells(b: PiecePosition, me: nat, mi: MoveInfo)
    requires Shaped(b) && me < 2 && PiecesInRange(mi) && mi.m.Promotion?
    ensures var b1 := PromotionPiecesBack(b, me, mi);
      && b1.sidePieces == b.sidePieces
      && forall s, pc :: 0 <= s < 2 && 0 <= pc < 6 ==> b1.pieces[s][pc] == Backward(b.pieces[s][pc], PieceShift(me, mi, s, pc))
  {
    var b1 := PromotionPiecesBack(b, me, mi);
    forall s, pc | 0 <= s < 2 && 0 <= pc < 6
      ensures b1.pieces[s][pc] == Backward(b.pieces[s][pc], PieceShift(me, mi, s, pc))
    {
      PromotionPieceBackCell(b.pieces[s][pc], b1.pieces[s][pc], me, mi, s, pc);
    }
  }

  lemma EnPassantSidesBack(b: PiecePosition, me: nat, mi: MoveInfo)
    requires Shaped(b) && me < 2 && mi.m.EnPassant?
    ensures var b1 := SidesBackFromEnPassant(b, me, mi.m.to, mi.m.from, Behind(me, mi.m.to));
      && b1.pieces == b.pieces
      && forall s :: 0 <= s < 2 ==>
        b1.sidePieces[s] == Backward(Backward(b.sidePieces[s], SideShift(me, mi, s)), SideRookShift(me, mi, s))
  {
    var b1 := SidesBackFromEnPassant(b, me, mi.m.to, mi.m.from, Behind(me, mi.m.to));
    forall s | 0 <= s < 2
      ensures b1.sidePieces[s] == Backward(Backward(b.sidePieces[s], SideShift(me, mi, s)), SideRookShift(me, mi, s))
    {
      EnPassantSideBackCell(b.sidePieces[s], b1.sidePieces[s], me, mi, s);
    }
  }

  lemma EnPassantPiecesBackCells(b: PiecePosition, me: nat, mi: MoveInfo)
    requires Shaped(b) && me < 2 && mi.m.EnPassant?
    ensures var b1 := EnPassantPiecesBack(b, me, mi.m.from, mi.m.to, Behind(me, mi.m.to));
      && b1.sidePieces == b.sidePieces
      && forall s, pc :: 0 <= s < 2 && 0 <= pc < 6 ==> b1.pieces[s][pc] == Backward(b.pieces[s][pc], PieceShift(me, mi, s, pc))
  {
    var b1 := EnPassantPiecesBack(b, me, mi.m.from, mi.m.to, Behind(me, mi.m.to));
    forall s, pc | 0 <= s < 2 && 0 <= pc < 6
      ensures b1.pieces[s][pc] == Backward(b.pieces[s][pc], PieceShift(me, mi, s, pc))
    {
      EnPassantPieceBackCell(b.pieces[s][pc], b1.pieces[s][pc], me, mi, s, pc);
    }
  }

  lemma CastleBackCells(b: PiecePosition, me: nat, mi: MoveInfo, kf: bv64, kt: bv64, rf: bv64, rt: bv64)
    requires Shaped(b) && me < 2 && mi.m.Castle? && CastleSquares(mi.m.castling) == Some((kf, kt, rf, rt))
    ensures var b1 := CastledBack(b, me, kf, kt, rf, rt);
      && (forall s :: 0 <= s < 2 ==>
        b1.sidePieces[s] == Backward(Backward(b.sidePieces[s], SideShift(me, mi, s)), SideRookShift(me, mi, s)))
      && forall s, pc :: 0 <= s < 2 && 0 <= pc < 6 ==> b1.pieces[s][pc] == Backward(b.pieces[s][pc], PieceShift(me, mi, s, pc))
  {
    var b1 := CastledBack(b, me, kf, kt, rf, rt);
    forall s | 0 <= s < 2
      ensures b1.sidePieces[s] == Backward(Backward(b.sidePieces[s], SideShift(me, mi, s)), SideRookShift(me, mi, s))
    {
      CastleSideBackCell(b.sidePieces[s], b1.sidePieces[s], me, mi, s, kf, kt, rf, rt);
    }
    forall s, pc | 0 <= s < 2 && 0 <= pc < 6
      ensures b1.pieces[s][pc] == Backward(b.pieces[s][pc], PieceShift(me, mi, s, pc))
    {
      CastlePieceBackCell(b.pieces[s][pc], b1.pieces[s][pc], me, mi, s, pc, kf, kt, rf, rt);
    }
  }

  lemma NoCastleBackCells(b: PiecePosition, me: nat, mi: MoveInfo)
    requires Shaped(b) && me < 2 && mi.m.Castle? && CastleSquares(mi.m.castling).None?
    ensures forall s :: 0 <= s < 2 ==>
      b.sidePieces[s] == Backward(Backward(b.sidePieces[s], SideShift(me, mi, s)), SideRookShift(me, mi, s))
    ensures forall s, pc :: 0 <= s < 2 && 0 <= pc < 6 ==> b.pieces[s][pc] == Backward(b.pieces[s][pc], PieceShift(me, mi, s, pc))
  {}

  lemma NormalReplaced(b: PiecePosition, me: nat, mi: MoveInfo)
    requires Shaped(b) && me < 2 && PiecesInRange(mi) && mi.m.Normal?
    ensures Replaced(b, me, mi) == UnmovedBoard(b, me, mi)
  {
    CaptureSidesBack(b, me, mi);
    NormalPiecesBackCells(SidesBackFromMove(b, me, mi.m.to, mi.m.from, mi.capturedPiece.Some?), me, mi);
    UnmovedBoardCells(b, me, mi, Replaced(b, me, mi));
  }

  lemma PromotionReplaced(b: PiecePosition, me: nat, mi: MoveInfo)
    requires Shaped(b) && me < 2 && PiecesInRange(mi) && mi.m.Promotion?
    ensures Replaced(b, me, mi) == UnmovedBoard(b, me, mi)
  {
    CaptureSidesBack(b, me, mi);
    PromotionPiecesBackCells(SidesBackFromMove(b, me, mi.m.to, mi.m.from, mi.capturedPiece.Some?), me, mi);
    UnmovedBoardCells(b, me, mi, Replaced(b, me, mi));
  }

  lemma EnPassantReplaced(b: PiecePosition, me: nat, mi: MoveInfo)
    requires Shaped(b) && me < 2 && mi.m.EnPassant?
    ensures Replaced(b, me, mi) == UnmovedBoard(b, me, mi)
  {
    EnPassantSidesBack(b, me, mi);
    EnPassantPiecesBackCells(SidesBackFromEnPassant(b, me, mi.m.to, mi.m.from, Behind(me, mi.m.to)), me, mi);
    UnmovedBoardCells(b, me, mi, Replaced(b, me, mi));
  }

  lemma CastleReplaced(b: PiecePosition, me: nat, mi: MoveInfo, kf: bv64, kt: bv64, rf: bv64, rt: bv64)
    requires Shaped(b) && me < 2 && mi.m.Castle? && CastleSquares(mi.m.castling) == Some((kf, kt, rf, rt))
    ensures Replaced(b, me, mi) == UnmovedBoard(b, me, mi)
  {
    CastleBackCells(b, me, mi, kf, kt, rf, rt);
    UnmovedBoardCells(b, me, mi, CastledBack(b, me, kf, kt, rf, rt));
  }

  lemma NoCastleReplaced(b: PiecePosition, me: nat, mi: MoveInfo)
    requires Shaped(b) && me < 2 && mi.m.Castle? && CastleSquares(mi.m.castling).None?
    ensures Replaced(b, me, mi) == UnmovedBoard(b, me, mi)
  {
    NoCastleBackCells(b, me, mi);
    UnmovedBoardCells(b, me, mi, b);
  }

  /** The step-by-step board writes of `undo_move` are the shift description `UnmovedBoard`. */
  lemma ReplacedUnmoves(b: PiecePosition, me: nat, mi: MoveInfo)
    requires Shaped(b) && me < 2 && PiecesInRange(mi)
    ensures Replaced(b, me, mi) == UnmovedBoard(b, me, mi)
  {
    match mi.m
    case Normal(_, _) => NormalReplaced(b, me, mi);
    case Promotion(_, _, _) => PromotionReplaced(b, me, mi);
    case EnPassant(_, _) => EnPassantReplaced(b, me, mi);
    case Castle(c) =>
      match CastleSquares(c)
      case Some((kf, kt, rf, rt)) => CastleReplaced(b, me, mi, kf, kt, rf, rt);
      case None => NoCastleReplaced(b, me, mi);
  }
}
