/**
 * The engine's mutable `Position` (board/models.rs): the bitboards, the side to move,
 * the half-move number, the state and the hash with their `prev` stacks, all updated
 * in place. `ApplyMove` and `UndoMove` are proved to do what `Models.Applied` and
 * `Models.Undone` say, so `MakeUnmake.ApplyUndo` carries over to them.
 */
module Game {
  import opened Bits
  import opened Wrappers
  import opened Models
  import opened Placement
  import opened MakeUnmake
  import opened ZobristInit

  class Position {
    var board: PiecePosition
    var sideToMove: nat
    var halfMoveNumber: nat
    var state: BoardState
    var statePrev: seq<BoardState>
    var zobrist: bv64
    var zobristPrev: seq<bv64>
    const zobristHashes: ZobristHashes

    /** Everything the position holds, as one value. */
    function Value(): PositionValue
      reads this
    {
      PositionValue(board, sideToMove, halfMoveNumber, state, statePrev, zobrist, zobristPrev, zobristHashes)
    }

    predicate Valid()
      reads this
    {
      WellFormed(Value())
    }

    /** `Position::empty`, with the key tables given (the engine draws them from a seeded RNG). */
    constructor (keys: ZobristHashes)
      requires KeysShaped(keys)
      ensures Valid()
      ensures Value() == PositionValue(EMPTY_BOARD, WHITE, 0, EMPTY_STATE, [], 0, [], keys)
    {
      board := EMPTY_BOARD;
      sideToMove := WHITE;
      halfMoveNumber := 0;
      state := EMPTY_STATE;
      statePrev := [];
      zobrist := 0;
      zobristPrev := [];
      zobristHashes := keys;
    }

    /** `set_piece`: puts `pos` on the side board and on the piece board; nothing else changes. */
    method SetPiece(pos: bv64, side: nat, piece: nat)
      requires Valid() && side < 2 && piece < 6
      modifies this
      ensures Valid()
      ensures Value() == old(Value()).(board := Added(WithSide(old(board), side, Put(old(board).sidePieces[side], pos)), side, piece, pos))
    {
      board := WithSide(board, side, Put(board.sidePieces[side], pos));
      board := Added(board, side, piece, pos);
    }

    /** `remove_piece`: takes `from` off a piece board and XORs that square's key into `h`. */
    method RemovePiece(side: nat, piece: nat, from: bv64, h: bv64) returns (r: bv64)
      requires Valid() && side < 2 && piece < 6 && from != 0
      modifies this
      ensures Valid()
      ensures r == Toggle(h, PieceKey(zobristHashes, side, piece, TrailingZeros(from)))
      ensures Value() == old(Value()).(board := Removed(old(board), side, piece, from))
    {
      var square := TrailingZeros(from);
      r := Toggle(h, zobristHashes.pieces[side][piece][square]);
      board := Removed(board, side, piece, from);
    }

    /** `add_piece`: puts `to` on a piece board and XORs that square's key into `h`. */
    method AddPiece(side: nat, piece: nat, to: bv64, h: bv64) returns (r: bv64)
      requires Valid() && side < 2 && piece < 6 && to != 0
      modifies this
      ensures Valid()
      ensures r == Toggle(h, PieceKey(zobristHashes, side, piece, TrailingZeros(to)))
      ensures Value() == old(Value()).(board := Added(old(board), side, piece, to))
    {
      var square := TrailingZeros(to);
      r := Toggle(h, zobristHashes.pieces[side][piece][square]);
      board := Added(board, side, piece, to);
    }

    /** `set_side_pieces_from_move`. */
    method SetSidePiecesFromMove(from: bv64, to: bv64, isCapture: bool)
      requires Valid()
      modifies this
      ensures Valid()
      ensures Value() == old(Value()).(board := SidesFromMove(old(board), sideToMove, from, to, isCapture))
    {
      var me := sideToMove;
      var opp := Opposite(me);
      board := WithSide(board, me, Clear(board.sidePieces[me], from));
      if isCapture {
        board := WithSide(board, opp, Clear(board.sidePieces[opp], to));
      }
      board := WithSide(board, me, Put(board.sidePieces[me], to));
    }

    /** `set_side_pieces_back_from_move`. */
    method SetSidePiecesBackFromMove(to: bv64, from: bv64, isCapture: bool)
      requires Valid()
      modifies this
      ensures Valid()
      ensures Value() == old(Value()).(board := SidesBackFromMove(old(board), sideToMove, to, from, isCapture))
    {
      hide Clear, Put, WithSide;
      var me := sideToMove;
      var opp := Opposite(me);
      board := WithSide(board, me, Clear(board.sidePieces[me], to));
      if isCapture {
        board := WithSide(board, opp, Put(board.sidePieces[opp], to));
      }
      board := WithSide(board, me, Put(board.sidePieces[me], from));
    }

    /** `set_side_pieces_from_enpassant`. */
    method SetSidePiecesFromEnpassant(from: bv64, to: bv64, squareToCapture: bv64)
      requires Valid()
      modifies this
      ensures Valid()
      ensures Value() == old(Value()).(board := SidesFromEnPassant(old(board), sideToMove, from, to, squareToCapture))
    {
      var me := sideToMove;
      var opp := Opposite(me);
      board := WithSide(board, me, Clear(board.sidePieces[me], from));
      board := WithSide(board, opp, Clear(board.sidePieces[opp], squareToCapture));
      board := WithSide(board, me, Put(board.sidePieces[me], to));
    }

    /** `set_side_pieces_back_from_enpassant`. */
    method SetSidePiecesBackFromEnpassant(to: bv64, from: bv64, squareToPopulate: bv64)
      requires Valid()
      modifies this
      ensures Valid()
      ensures Value() == old(Value()).(board := SidesBackFromEnPassant(old(board), sideToMove, to, from, squareToPopulate))
    {
      var me := sideToMove;
      var opp := Opposite(me);
      board := WithSide(board, me, Clear(board.sidePieces[me], to));
      board := WithSide(board, opp, Put(board.sidePieces[opp], squareToPopulate));
      board := WithSide(board, me, Put(board.sidePieces[me], from));
    }

    /** `castle`: the king from `kf` to `kt`, then the rook from `rf` to `rt`, with their four keys. */
    method Castle(kf: bv64, kt: bv64, rf: bv64, rt: bv64, h: bv64) returns (r: bv64)
      requires Valid() && kf != 0 && kt != 0 && rf != 0 && rt != 0
      modifies this
      ensures Valid()
      ensures r == Toggle(Toggle(Toggle(Toggle(h,
        PieceKey(zobristHashes, sideToMove, KING, TrailingZeros(kf))),
        PieceKey(zobristHashes, sideToMove, KING, TrailingZeros(kt))),
        PieceKey(zobristHashes, sideToMove, ROOK, TrailingZeros(rf))),
        PieceKey(zobristHashes, sideToMove, ROOK, TrailingZeros(rt)))
      ensures Value() == old(Value()).(board := Castled(old(board), sideToMove, kf, kt, rf, rt))
    {
      var me := sideToMove;
      SetSidePiecesFromMove(kf, kt, false);
      r := RemovePiece(me, KING, kf, h);
      r := AddPiece(me, KING, kt, r);
      SetSidePiecesFromMove(rf, rt, false);
      r := RemovePiece(me, ROOK, rf, r);
      r := AddPiece(me, ROOK, rt, r);
    }

    /** `move_piece_from_move`. */
    method MovePieceFromMove(from: bv64, to: bv64, mi: MoveInfo, h: bv64) returns (r: bv64)
      requires Valid() && mi.piece < 6 && CapturedOk(mi) && from != 0 && to != 0
      modifies this
      ensures Valid()
      ensures r == PiecesHash(zobristHashes, sideToMove, MoveInfo(Normal(from, to), mi.piece, mi.capturedPiece), h)
      ensures Value() == old(Value()).(board := PiecesFromMove(old(board), sideToMove, mi.piece, mi.capturedPiece, from, to))
    {
      var me := sideToMove;
      r := RemovePiece(me, mi.piece, from, h);
      r := AddPiece(me, mi.piece, to, r);
      if mi.capturedPiece.Some? {
        r := RemovePiece(Opposite(me), mi.capturedPiece.value, to, r);
      }
    }

    /** `promote_from_move`. */
    method PromoteFromMove(from: bv64, to: bv64, piece: nat, captured: Option<nat>, h: bv64) returns (r: bv64)
      requires Valid() && piece < 6 && (captured.Some? ==> captured.value < 6) && from != 0 && to != 0
      modifies this
      ensures Valid()
      ensures r == PiecesHash(zobristHashes, sideToMove, MoveInfo(Promotion(from, to, piece), PAWN, captured), h)
      ensures Value() == old(Value()).(board := PiecesFromPromotion(old(board), sideToMove, piece, captured, from, to))
    {
      var me := sideToMove;
      r := RemovePiece(me, PAWN, from, h);
      r := AddPiece(me, piece, to, r);
      if captured.Some? {
        r := RemovePiece(Opposite(me), captured.value, to, r);
      }
    }

    /** The board and piece keys of a Normal move: `set_side_pieces_from_move`, then `move_piece_from_move`. */
    method MoveNormal(mi: MoveInfo, h: bv64) returns (r: bv64)
      requires Valid() && MoveInRange(sideToMove, mi) && mi.m.Normal?
      modifies this
      ensures Valid()
      ensures Value() == old(Value()).(board := Placed(old(board), sideToMove, mi))
      ensures r == PiecesHash(zobristHashes, sideToMove, mi, h)
    {
      SetSidePiecesFromMove(mi.m.from, mi.m.to, mi.capturedPiece.Some?);
      r := MovePieceFromMove(mi.m.from, mi.m.to, mi, h);
    }

    /** What the Normal arm of `apply_move` notes before and after moving: a double push's target and the king and rook events. */
    method NormalEvents(mi: MoveInfo) returns (enpassantSquare: bv64, events: CastlingEvents)
      requires Valid() && MoveInRange(sideToMove, mi) && mi.m.Normal?
      ensures events == Events(board, sideToMove, mi)
      ensures enpassantSquare ==
        if mi.piece == PAWN && PawnMovingTwoSquares(board, sideToMove, mi.m.from, mi.m.to) then mi.m.to else NONE
    {
      var me := sideToMove;
      var from, to := mi.m.from, mi.m.to;
      var ownRooks := board.pieces[me][ROOK];
      var oppositeRooks := board.pieces[Opposite(me)][ROOK];
      var hasKingMoved := mi.piece == KING;
      var isCapture := mi.capturedPiece.Some?;
      enpassantSquare := NONE;
      if mi.piece == PAWN && PawnMovingTwoSquares(board, me, from, to) {
        enpassantSquare := to;
      }
      var rookMoved := !hasKingMoved && mi.piece == ROOK;
      var hasQueenRookMoved := rookMoved && Share(if me == WHITE then A1 else A8, ownRooks, from);
      var hasKingRookMoved := rookMoved && Share(if me == WHITE then H1 else H8, ownRooks, from);
      var rookCaptured := isCapture && mi.capturedPiece.value == ROOK;
      var oppositeQueenRookCaptured := rookCaptured && Share(if me == WHITE then A8 else A1, oppositeRooks, to);
      var oppositeKingRookCaptured := rookCaptured && Share(if me == WHITE then H8 else H1, oppositeRooks, to);
      events := CastlingEvents(hasKingMoved, hasKingRookMoved, hasQueenRookMoved,
        oppositeQueenRookCaptured, oppositeKingRookCaptured);
    }

    /** The pre-move rook boards a Promotion reads: whether it captures a rook on the opponent's corners. */
    method PromotionEvents(mi: MoveInfo) returns (events: CastlingEvents)
      requires Valid() && MoveInRange(sideToMove, mi) && mi.m.Promotion?
      ensures events == Events(board, sideToMove, mi)
    {
      var me := sideToMove;
      var to := mi.m.to;
      var oppositeRooks := board.pieces[Opposite(me)][ROOK];
      var rookCaptured := mi.capturedPiece.Some? && mi.capturedPiece.value == ROOK;
      var oppositeQueenRookCaptured := rookCaptured && Share(if me == WHITE then A8 else A1, oppositeRooks, to);
      var oppositeKingRookCaptured := rookCaptured && Share(if me == WHITE then H8 else H1, oppositeRooks, to);
      events := CastlingEvents(mi.piece == KING, false, false, oppositeQueenRookCaptured, oppositeKingRookCaptured);
    }

    /** The board and piece keys of a Promotion: `set_side_pieces_from_move`, then `promote_from_move`. */
    method MovePromotion(mi: MoveInfo, h: bv64) returns (r: bv64)
      requires Valid() && MoveInRange(sideToMove, mi) && mi.m.Promotion?
      modifies this
      ensures Valid()
      ensures Value() == old(Value()).(board := Placed(old(board), sideToMove, mi))
      ensures r == PiecesHash(zobristHashes, sideToMove, mi, h)
    {
      SetSidePiecesFromMove(mi.m.from, mi.m.to, mi.capturedPiece.Some?);
      r := PromoteFromMove(mi.m.from, mi.m.to, mi.m.promoted, mi.capturedPiece, h);
    }

    /** The board and piece keys of an en-passant capture: the captured pawn stands behind `to`. */
    method MoveEnPassant(mi: MoveInfo, h: bv64) returns (r: bv64)
      requires Valid() && MoveInRange(sideToMove, mi) && mi.m.EnPassant?
      modifies this
      ensures Valid()
      ensures Value() == old(Value()).(board := Placed(old(board), sideToMove, mi))
      ensures r == PiecesHash(zobristHashes, sideToMove, mi, h)
    {
      var me := sideToMove;
      var from, to := mi.m.from, mi.m.to;
      var squareToCapture := Behind(me, to);
      SetSidePiecesFromEnpassant(from, to, squareToCapture);
      r := RemovePiece(me, PAWN, from, h);
      r := AddPiece(me, PAWN, to, r);
      r := RemovePiece(Opposite(me), PAWN, squareToCapture, r);
    }

    /** The Castle arm of `apply_move`'s `match`: one of four castles, or nothing for any other value. */
    method MoveCastle(mi: MoveInfo, h: bv64) returns (r: bv64, events: CastlingEvents)
      requires Valid() && mi.m.Castle?
      modifies this
      ensures Valid()
      ensures Value() == old(Value()).(board := Placed(old(board), sideToMove, mi))
      ensures r == PiecesHash(zobristHashes, sideToMove, mi, h)
      ensures events == Events(old(board), sideToMove, mi)
    {
      var c := mi.m.castling;
      var hasKingRookMoved, hasQueenRookMoved := false, false;
      r := h;
      if c == WHITE_KING_SIDE {
        hasKingRookMoved := true;
        r := Castle(E1, G1, H1, F1, h);
      } else if c == WHITE_QUEEN_SIDE {
        hasQueenRookMoved := true;
        r := Castle(E1, C1, A1, D1, h);
      } else if c == BLACK_KING_SIDE {
        hasKingRookMoved := true;
        r := Castle(E8, G8, H8, F8, h);
      } else if c == BLACK_QUEEN_SIDE {
        hasQueenRookMoved := true;
        r := Castle(E8, C8, A8, D8, h);
      }
      events := CastlingEvents(mi.piece == KING, hasKingRookMoved, hasQueenRookMoved, false, false);
    }
  
    /**
     * The `match` of `apply_move`. The Normal arm's double-push check and rook flags
     * read the board as it was before the move (the source saves the rook boards
     * first), so they are computed before the pieces move.
     */
    method MovePieces(mi: MoveInfo, h: bv64) returns (r: bv64, enpassantSquare: bv64, events: CastlingEvents)
      requires Valid() && MoveInRange(sideToMove, mi)
      modifies this
      ensures Valid()
      ensures Value() == old(Value()).(board := MovedBoard(old(board), sideToMove, mi))
      ensures r == PiecesHash(zobristHashes, sideToMove, mi, h)
      ensures events == Events(old(board), sideToMove, mi)
      ensures enpassantSquare ==
        if mi.m.Normal? && mi.piece == PAWN && PawnMovingTwoSquares(old(board), sideToMove, mi.m.from, mi.m.to)
        then mi.m.to else NONE
    {
      PlacedMoves(board, sideToMove, mi);
      enpassantSquare := NONE;
      match mi.m
      case Normal(_, _) =>
        enpassantSquare, events := NormalEvents(mi);
        r := MoveNormal(mi, h);
      case Promotion(_, _, _) =>
        events := PromotionEvents(mi);
        r := MovePromotion(mi, h);
      case EnPassant(_, _) =>
        events := CastlingEvents(mi.piece == KING, false, false, false, false);
        r := MoveEnPassant(mi, h);
      case Castle(_) =>
        r, events := MoveCastle(mi, h);
    }

    /** The flag clearing of `apply_move`'s castling block (run only while some right is left). */
    static method ClearCastling(c: bv8, me: nat, events: CastlingEvents) returns (r: bv8)
      requires c != NO_CASTLING
      ensures r == CastlingAfter(c, me, events)
    {
      var opp := Opposite(me);
      r := c;
      if events.kingMoved {
        r := Revoke(r, KingSide(me));
        r := Revoke(r, QueenSide(me));
      } else {
        if events.kingRookMoved {
          r := Revoke(r, KingSide(me));
        }
        if events.queenRookMoved {
          r := Revoke(r, QueenSide(me));
        }
      }
      if events.oppositeQueenRookCaptured {
        r := Revoke(r, QueenSide(opp));
      }
      if events.oppositeKingRookCaptured {
        r := Revoke(r, KingSide(opp));
      }
    }

    /** The en-passant keys of `apply_move`: old and new square XORed in when the square changed. */
    method EnPassantStep(h: bv64, before: bv64, after: bv64) returns (r: bv64)
      requires KeysShaped(zobristHashes)
      ensures r == EnPassantHash(zobristHashes, h, before, after)
    {
      r := h;
      if after != before {
        r := Toggle(r, zobristHashes.enPassant[TrailingZeros(before)]);
        r := Toggle(r, zobristHashes.enPassant[TrailingZeros(after)]);
      }
    }

    /** The castling block of `apply_move`: the rights after the flag clearing and the hash with their keys. */
    method CastlingStep(h: bv64, before: bv8, me: nat, events: CastlingEvents) returns (castling: bv8, r: bv64)
      requires KeysShaped(zobristHashes) && before < 16
      ensures castling == CastlingAfter(before, me, events) && castling < 16
      ensures r == CastlingHash(zobristHashes, h, before, castling, events)
    {
      castling := before;
      r := h;
      CastlingAfterBelow(before, me, events);
      if castling != NO_CASTLING {
        castling := ClearCastling(castling, me, events);
        if AnyEvent(events) && castling != before {
          r := Toggle(r, zobristHashes.castling[before]);
          r := Toggle(r, zobristHashes.castling[castling]);
        }
      }
    }

    /**
     * The part of `apply_move` after the pieces moved: the counters, the en-passant
     * square, the castling rights and the hash with their keys and the new side's key,
     * for the position `p` the move started from.
     */
    method StateAndHash(p: PositionValue, mi: MoveInfo, h: bv64, enpassantSquare: bv64, events: CastlingEvents)
      returns (next: BoardState, hash: bv64)
      requires Applicable(p, mi) && p.keys == zobristHashes
      requires h == PiecesHash(p.keys, p.sideToMove, mi, p.zobrist)
      requires events == Events(p.board, p.sideToMove, mi)
      requires enpassantSquare ==
        if mi.m.Normal? && mi.piece == PAWN && PawnMovingTwoSquares(p.board, p.sideToMove, mi.m.from, mi.m.to)
        then mi.m.to else NONE
      ensures next == NextState(p, mi) && hash == NextHash(p, mi)
    {
      var me := p.sideToMove;
      var prevState := p.state;
      var isCapture := mi.capturedPiece.Some?;
      var sinceLastCapture := if isCapture then 0 else prevState.sinceLastCapture + 1;
      var sinceLastCaptureOrPawnMovement :=
        if isCapture || mi.piece == PAWN then 0 else prevState.sinceLastCaptureOrPawnMovement + 1;
      var enPassant := NONE;
      if enpassantSquare != NONE {
        enPassant := Behind(me, enpassantSquare);
      }
      hash := EnPassantStep(h, prevState.enPassant, enPassant);
      var castling;
      castling, hash := CastlingStep(hash, prevState.castling, me, events);
      var side := if me == WHITE then BLACK else WHITE;
      hash := Toggle(hash, zobristHashes.side[side]);
      next := BoardState(sinceLastCapture, sinceLastCaptureOrPawnMovement, castling, enPassant);
    }

    /**
     * `apply_move`: the pieces move, the half-move number and the counters advance,
     * the en-passant square and the castling rights are updated with their keys,
     * the side flips and its key is XORed in; the old state and hash are pushed.
     */
    method ApplyMove(mi: MoveInfo)
      requires Valid() && MoveInRange(sideToMove, mi)
      modifies this
      ensures Value() == Applied(old(Value()), mi)
      ensures Valid()
    {
      var p := Value();
      var h, enpassantSquare, events := MovePieces(mi, zobrist);
      var next, hash := StateAndHash(p, mi, h, enpassantSquare, events);
      AppliedFields(p, mi, board, next, hash);
      PushState(next, hash);
    }

    /**
     * The closing steps of `apply_move`: the half-move number advances, the side flips,
     * and the new state and hash replace the current ones, which are pushed.
     */
    method PushState(next: BoardState, hash: bv64)
      modifies this
      ensures Value() == old(Value()).(sideToMove := Opposite(old(sideToMove)),
        halfMoveNumber := old(halfMoveNumber) + 1, state := next, statePrev := old(statePrev) + [old(state)],
        zobrist := hash, zobristPrev := old(zobristPrev) + [old(zobrist)])
    {
      halfMoveNumber := halfMoveNumber + 1;
      sideToMove := if sideToMove == WHITE then BLACK else WHITE;
      statePrev := statePrev + [state];
      state := next;
      zobristPrev := zobristPrev + [zobrist];
      zobrist := hash;
    }

    // ---- undo_move ----

    /** The Normal arm of `undo_move`: side boards back, the piece back, the captured piece restored. */
    method UnmoveNormal(mi: MoveInfo)
      requires Valid() && PiecesInRange(mi) && mi.m.Normal?
      modifies this
      ensures Valid()
      ensures Value() == old(Value()).(board := Replaced(old(board), sideToMove, mi))
    {
      var me := sideToMove;
      SetSidePiecesBackFromMove(mi.m.to, mi.m.from, mi.capturedPiece.Some?);
      board := Removed(board, me, mi.piece, mi.m.to);
      board := Added(board, me, mi.piece, mi.m.from);
      if mi.capturedPiece.Some? {
        board := Added(board, Opposite(me), mi.capturedPiece.value, mi.m.to);
      }
    }

    /** The Promotion arm of `undo_move`: the promoted piece leaves `to`, a pawn returns to `from`. */
    method UnmovePromotion(mi: MoveInfo)
      requires Valid() && PiecesInRange(mi) && mi.m.Promotion?
      modifies this
      ensures Valid()
      ensures Value() == old(Value()).(board := Replaced(old(board), sideToMove, mi))
    {
      var me := sideToMove;
      SetSidePiecesBackFromMove(mi.m.to, mi.m.from, mi.capturedPiece.Some?);
      board := Removed(board, me, mi.m.promoted, mi.m.to);
      board := Added(board, me, PAWN, mi.m.from);
      if mi.capturedPiece.Some? {
        board := Added(board, Opposite(me), mi.capturedPiece.value, mi.m.to);
      }
    }

    /** The en-passant arm of `undo_move`: the captured pawn comes back behind `to`. */
    method UnmoveEnPassant(mi: MoveInfo)
      requires Valid() && mi.m.EnPassant?
      modifies this
      ensures Valid()
      ensures Value() == old(Value()).(board := Replaced(old(board), sideToMove, mi))
    {
      var me := sideToMove;
      var from, to := mi.m.from, mi.m.to;
      var squareToPopulate := Behind(me, to);
      SetSidePiecesBackFromEnpassant(to, from, squareToPopulate);
      board := Removed(board, me, PAWN, to);
      board := Added(board, me, PAWN, from);
      board := Added(board, Opposite(me), PAWN, squareToPopulate);
    }

    /** One castle of `undo_move`: both side-board moves back, then the king's and the rook's boards. */
    method CastleBack(kf: bv64, kt: bv64, rf: bv64, rt: bv64)
      requires Valid()
      modifies this
      ensures Valid()
      ensures Value() == old(Value()).(board := CastledBack(old(board), sideToMove, kf, kt, rf, rt))
    {
      var me := sideToMove;
      SetSidePiecesBackFromMove(kt, kf, false);
      SetSidePiecesBackFromMove(rt, rf, false);
      board := Removed(board, me, KING, kt);
      board := Added(board, me, KING, kf);
      board := Removed(board, me, ROOK, rt);
      board := Added(board, me, ROOK, rf);
    }

    /** The Castle arm of `undo_move`: one of four castles taken back, or nothing for any other value. */
    method UnmoveCastle(mi: MoveInfo)
      requires Valid() && mi.m.Castle?
      modifies this
      ensures Valid()
      ensures Value() == old(Value()).(board := Replaced(old(board), sideToMove, mi))
    {
      var c := mi.m.castling;
      if c == WHITE_KING_SIDE {
        CastleBack(E1, G1, H1, F1);
      } else if c == WHITE_QUEEN_SIDE {
        CastleBack(E1, C1, A1, D1);
      } else if c == BLACK_KING_SIDE {
        CastleBack(E8, G8, H8, F8);
      } else if c == BLACK_QUEEN_SIDE {
        CastleBack(E8, C8, A8, D8);
      }
    }

    /** The `match` of `undo_move`, the side to move being the one that made `mi`. */
    method UnmovePieces(mi: MoveInfo)
      requires Valid() && PiecesInRange(mi)
      modifies this
      ensures Valid()
      ensures Value() == old(Value()).(board := UnmovedBoard(old(board), sideToMove, mi))
    {
      ReplacedUnmoves(board, sideToMove, mi);
      match mi.m
      case Normal(_, _) => UnmoveNormal(mi);
      case Promotion(_, _, _) => UnmovePromotion(mi);
      case EnPassant(_, _) => UnmoveEnPassant(mi);
      case Castle(_) => UnmoveCastle(mi);
    }

    /** The closing steps of `undo_move`: the previous hash and state come back and the half-move number drops. */
    method PopState()
      requires |statePrev| > 0 && |zobristPrev| > 0 && halfMoveNumber > 0
      modifies this
      ensures Value() == old(Value()).(halfMoveNumber := old(halfMoveNumber) - 1,
        state := old(statePrev)[|old(statePrev)| - 1], statePrev := old(statePrev)[..|old(statePrev)| - 1],
        zobrist := old(zobristPrev)[|old(zobristPrev)| - 1], zobristPrev := old(zobristPrev)[..|old(zobristPrev)| - 1])
    {
      zobrist := zobristPrev[|zobristPrev| - 1];
      zobristPrev := zobristPrev[..|zobristPrev| - 1];
      state := statePrev[|statePrev| - 1];
      statePrev := statePrev[..|statePrev| - 1];
      halfMoveNumber := halfMoveNumber - 1;
    }

    /**
     * `undo_move`: the side flips back first, the pieces return, and the state and
     * hash before the move are popped.
     */
    method UndoMove(mi: MoveInfo)
      requires Undoable(Value(), mi)
      modifies this
      ensures Value() == Undone(old(Value()), mi)
      ensures Valid()
    {
      sideToMove := Opposite(sideToMove);
      UnmovePieces(mi);
      PopState();
    }

    /** `apply_move` followed by `undo_move` of the same move gives back the position, hash and stacks included. */
    method ApplyThenUndo(mi: MoveInfo)
      requires Valid() && MoveInRange(sideToMove, mi) && Fits(board, sideToMove, mi)
      modifies this
      ensures Value() == old(Value())
    {
      ghost var before := Value();
      ApplyUndo(before, mi);
      ApplyMove(mi);
      UndoMove(mi);
    }

    /**
     * `init_zobrist_key`: the hash of the position computed from scratch. For each piece
     * type it toggles in the key of every white square, then of every black square,
     * clearing the lowest bit each time; then the castling, side and en-passant keys.
     */
    method InitZobristKey() returns (hash: bv64)
      requires Valid()
      ensures hash == ZobristKey(Value())
    {
      hide Toggle, PieceKey, CastlingKey, SideKey, EnPassantKey, SquaresHash, BoardHash, TrailingZeros, Lowest, Bit, PopCount;
      var k := zobristHashes;
      var result: bv64 := 0;
      var pieceType := 0;
      while pieceType < 6
        invariant pieceType <= 6
        invariant BoardHash(k, board, pieceType, result) == BoardHash(k, board, 0, 0)
        decreases 6 - pieceType
      {
        var start := result;
        var middle := ToggleSquares(k, WHITE, pieceType, board.pieces[WHITE][pieceType], start);
        result := ToggleSquares(k, BLACK, pieceType, board.pieces[BLACK][pieceType], middle);
        BoardHashStep(k, board, pieceType, start);
        pieceType := pieceType + 1;
      }
      BoardHashDone(k, board, result);
      result := Toggle(result, CastlingKey(k, state.castling));
      result := Toggle(result, SideKey(k, sideToMove));
      result := Toggle(result, EnPassantKey(k, state.enPassant));
      hash := result;
    }
}
}
