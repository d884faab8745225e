/**
 * The board, its per-move state and the make / unmake of moves (board/models.rs).
 *
 * Bitboards are `bv64` (bit i = square i, a1 = 0 ... h8 = 63). `Side` and `Piece`
 * are the engine's `usize` indices; castling rights are the engine's `u8` flags.
 * The engine keeps the previous `BoardState` and `ZobristValue` in `prev` chains;
 * here they are stacks (`seq`, most recent last).
 * The pure functions below give the value-level meaning of `apply_move` and
 * `undo_move`; the `Position` class applies them in place, step by step.
 */
module Models {
  import opened Bits
  import opened Wrappers

  // ---- Side ----
  const WHITE: nat := 0
  const BLACK: nat := 1

  // ---- Piece ----
  const PAWN: nat := 0
  const BISHOP: nat := 1
  const KNIGHT: nat := 2
  const ROOK: nat := 3
  const QUEEN: nat := 4
  const KING: nat := 5

  // ---- Castling ----
  const NO_CASTLING: bv8 := 0x0
  const WHITE_QUEEN_SIDE: bv8 := 0x8
  const WHITE_KING_SIDE: bv8 := 0x4
  const BLACK_QUEEN_SIDE: bv8 := 0x2
  const BLACK_KING_SIDE: bv8 := 0x1
  const ALL_WHITE: bv8 := 0xC
  const ALL_BLACK: bv8 := 0x3
  const ALL: bv8 := 0xF

  // ---- Square ----
  const NONE: bv64 := 0
  const A1: bv64 := 0x1
  const B1: bv64 := 0x2
  const C1: bv64 := 0x4
  const D1: bv64 := 0x8
  const E1: bv64 := 0x10
  const F1: bv64 := 0x20
  const G1: bv64 := 0x40
  const H1: bv64 := 0x80
  const A2: bv64 := 0x100
  const B2: bv64 := 0x200
  const C2: bv64 := 0x400
  const D2: bv64 := 0x800
  const E2: bv64 := 0x1000
  const F2: bv64 := 0x2000
  const G2: bv64 := 0x4000
  const H2: bv64 := 0x8000
  const A3: bv64 := 0x10000
  const B3: bv64 := 0x20000
  const C3: bv64 := 0x40000
  const D3: bv64 := 0x80000
  const E3: bv64 := 0x100000
  const F3: bv64 := 0x200000
  const G3: bv64 := 0x400000
  const H3: bv64 := 0x800000
  const A4: bv64 := 0x1000000
  const B4: bv64 := 0x2000000
  const C4: bv64 := 0x4000000
  const D4: bv64 := 0x8000000
  const E4: bv64 := 0x10000000
  const F4: bv64 := 0x20000000
  const G4: bv64 := 0x40000000
  const H4: bv64 := 0x80000000
  const A5: bv64 := 0x100000000
  const B5: bv64 := 0x200000000
  const C5: bv64 := 0x400000000
  const D5: bv64 := 0x800000000
  const E5: bv64 := 0x1000000000
  const F5: bv64 := 0x2000000000
  const G5: bv64 := 0x4000000000
  const H5: bv64 := 0x8000000000
  const A6: bv64 := 0x10000000000
  const B6: bv64 := 0x20000000000
  const C6: bv64 := 0x40000000000
  const D6: bv64 := 0x80000000000
  const E6: bv64 := 0x100000000000
  const F6: bv64 := 0x200000000000
  const G6: bv64 := 0x400000000000
  const H6: bv64 := 0x800000000000
  const A7: bv64 := 0x1000000000000
  const B7: bv64 := 0x2000000000000
  const C7: bv64 := 0x4000000000000
  const D7: bv64 := 0x8000000000000
  const E7: bv64 := 0x10000000000000
  const F7: bv64 := 0x20000000000000
  const G7: bv64 := 0x40000000000000
  const H7: bv64 := 0x80000000000000
  const A8: bv64 := 0x100000000000000
  const B8: bv64 := 0x200000000000000
  const C8: bv64 := 0x400000000000000
  const D8: bv64 := 0x800000000000000
  const E8: bv64 := 0x1000000000000000
  const F8: bv64 := 0x2000000000000000
  const G8: bv64 := 0x4000000000000000
  const H8: bv64 := 0x8000000000000000
  const EXTREME_ROWS: bv64 := 0xFF00_0000_0000_00FF
  const SECOND_ROW: bv64 := 0xFF00
  const SEVENTH_ROW: bv64 := 0x00FF_0000_0000_0000

  datatype Move =
    | Normal(from: bv64, to: bv64)
    | Castle(castling: bv8)
    | EnPassant(from: bv64, to: bv64)
    | Promotion(from: bv64, to: bv64, promoted: nat)

  /** A move with the piece that makes it and the piece it captures (declared in movegen/generator.rs). */
  datatype MoveInfo = MoveInfo(m: Move, piece: nat, capturedPiece: Option<nat>)

  /** `side_pieces[side]` and `pieces[side][piece]`. */
  datatype PiecePosition = PiecePosition(sidePieces: seq<bv64>, pieces: seq<seq<bv64>>)

  /** `BoardState` without its `prev` link. */
  datatype BoardState = BoardState(
    sinceLastCapture: nat,
    sinceLastCaptureOrPawnMovement: nat,
    castling: bv8,
    enPassant: bv64)

  /** The Zobrist key tables: [2][6][64] piece keys, 16 castling, 2 side and 65 en-passant keys. */
  datatype ZobristHashes = ZobristHashes(
    pieces: seq<seq<seq<bv64>>>,
    castling: seq<bv64>,
    side: seq<bv64>,
    enPassant: seq<bv64>)

  /** Everything a `Position` holds, as one value. */
  datatype PositionValue = PositionValue(
    board: PiecePosition,
    sideToMove: nat,
    halfMoveNumber: nat,
    state: BoardState,
    statePrev: seq<BoardState>,
    zobrist: bv64,
    zobristPrev: seq<bv64>,
    keys: ZobristHashes)

  const EMPTY_BOARD := PiecePosition([0, 0], [[0, 0, 0, 0, 0, 0], [0, 0, 0, 0, 0, 0]])
  const EMPTY_STATE := BoardState(0, 0, NO_CASTLING, NONE)

  predicate Shaped(b: PiecePosition)
  {
    |b.sidePieces| == 2 && |b.pieces| == 2 && |b.pieces[0]| == 6 && |b.pieces[1]| == 6
  }

  predicate KeysShaped(k: ZobristHashes)
  {
    && |k.pieces| == 2
    && (forall s :: 0 <= s < 2 ==> |k.pieces[s]| == 6)
    && (forall s, pc :: 0 <= s < 2 && 0 <= pc < 6 ==> |k.pieces[s][pc]| == 64)
    && |k.castling| == 16 && |k.side| == 2 && |k.enPassant| == 65
  }

  /** What every index the engine takes stays within: array shapes, the side, the castling flags. */
  predicate WellFormed(p: PositionValue)
  {
    && Shaped(p.board)
    && KeysShaped(p.keys)
    && p.sideToMove < 2
    && p.state.castling < 16
    && (forall i :: 0 <= i < |p.statePrev| ==> p.statePrev[i].castling < 16)
  }

  // ---- Zobrist keys ----

  function PieceKey(k: ZobristHashes, side: nat, piece: nat, square: nat): bv64
    requires KeysShaped(k) && side < 2 && piece < 6 && square < 64
  {
    k.pieces[side][piece][square]
  }

  function CastlingKey(k: ZobristHashes, c: bv8): bv64
    requires KeysShaped(k) && c < 16
  {
    k.castling[c]
  }

  function SideKey(k: ZobristHashes, side: nat): bv64
    requires KeysShaped(k) && side < 2
  {
    k.side[side]
  }

  /** En-passant key of a square; NONE has 64 trailing zeros and takes the last key. */
  function EnPassantKey(k: ZobristHashes, square: bv64): bv64
    requires KeysShaped(k)
  {
    k.enPassant[TrailingZeros(square)]
  }

  // ---- Board access ----

  /** `opposite_side`: black for white, white for black, 0 for any other index. */
  function Opposite(side: nat): (r: nat)
    ensures side < 2 ==> r < 2 && r != side
    ensures side == WHITE <==> r == BLACK
  {
    if side == BLACK then WHITE else if side == WHITE then BLACK else 0
  }

  function WithSide(b: PiecePosition, side: nat, v: bv64): (r: PiecePosition)
    requires Shaped(b) && side < 2
    ensures Shaped(r)
  {
    b.(sidePieces := b.sidePieces[side := v])
  }

  function WithPiece(b: PiecePosition, side: nat, piece: nat, v: bv64): (r: PiecePosition)
    requires Shaped(b) && side < 2 && piece < 6
    ensures Shaped(r)
  {
    b.(pieces := b.pieces[side := b.pieces[side][piece := v]])
  }

  /**
   * The square one rank behind `sq` as `me` sees it (`sq >> 8` for white, `sq << 8` for black):
   * the pawn taken en passant, and the square a double push passes over.
   */
  function Behind(me: nat, sq: bv64): bv64
  {
    if me == WHITE then sq >> 8 else sq << 8
  }

  /** `(a & b & c) > 0`: the three bitboards share a square. */
  predicate Share(a: bv64, b: bv64, c: bv64)
  {
    a & b & c != 0
  }

  /** `hash ^= key`. */
  function Toggle(h: bv64, key: bv64): bv64
  {
    h ^ key
  }

  predicate CapturedOk(mi: MoveInfo)
  {
    mi.capturedPiece.Some? ==> mi.capturedPiece.value < 6
  }

  /** The piece indices a move carries are below 6 (the moving piece is read only for Normal moves). */
  predicate PiecesInRange(mi: MoveInfo)
  {
    match mi.m
    case Normal(_, _) => mi.piece < 6 && CapturedOk(mi)
    case Promotion(_, _, q) => q < 6 && CapturedOk(mi)
    case EnPassant(_, _) => true
    case Castle(_) => true
  }

  /**
   * The indices `apply_move` uses are in range: piece indices below 6 and non-empty
   * squares, whose `trailing_zeros` index the 64 piece keys (anything else panics).
   */
  predicate MoveInRange(me: nat, mi: MoveInfo)
  {
    && PiecesInRange(mi)
    && match mi.m
       case Normal(f, t) => f != 0 && t != 0
       case Promotion(f, t, _) => f != 0 && t != 0
       case EnPassant(f, t) => f != 0 && t != 0 && Behind(me, t) != 0
       case Castle(_) => true
  }

  predicate Applicable(p: PositionValue, mi: MoveInfo)
  {
    WellFormed(p) && MoveInRange(p.sideToMove, mi)
  }

  /** What `undo_move` needs: something to pop, a half move to take back, indices in range. */
  predicate Undoable(p: PositionValue, mi: MoveInfo)
  {
    && WellFormed(p)
    && |p.statePrev| > 0 && |p.zobristPrev| > 0 && p.halfMoveNumber > 0
    && PiecesInRange(mi)
  }

  // ---- The board after a move ----

  /** The castle's king from/to and rook from/to squares, if `c` is one of the four single rights. */
  function CastleSquares(c: bv8): Option<(bv64, bv64, bv64, bv64)>
  {
    if c == WHITE_KING_SIDE then Some((E1, G1, H1, F1))
    else if c == WHITE_QUEEN_SIDE then Some((E1, C1, A1, D1))
    else if c == BLACK_KING_SIDE then Some((E8, G8, H8, F8))
    else if c == BLACK_QUEEN_SIDE then Some((E8, C8, A8, D8))
    else None
  }

  /** `bitboard &= !squares`, as `remove_piece` and the side-board helpers write it. */
  function Clear(x: bv64, squares: bv64): bv64
  {
    x & !squares
  }

  /** `bitboard |= squares`, as `add_piece` and the side-board helpers write it. */
  function Put(x: bv64, squares: bv64): bv64
  {
    x | squares
  }

  /**
   * What a move does to one bitboard: nothing, a piece sliding from one square to
   * another, a piece lifted off a square (a capture, a pawn promoting) or a piece
   * dropped on a square (the promoted piece).
   */
  datatype Shift = Keep | Slide(from: bv64, to: bv64) | Lift(from: bv64) | Drop(to: bv64)

  /** The bitboard after the shift, as `apply_move` computes it (`&= !from`, then `|= to`). */
  function Forward(x: bv64, sh: Shift): bv64
  {
    match sh
    case Keep => x
    case Slide(f, t) => Put(Clear(x, f), t)
    case Lift(f) => Clear(x, f)
    case Drop(t) => Put(x, t)
  }

  /** The bitboard after the shift is taken back, as `undo_move` computes it (`&= !to`, then `|= from`). */
  function Backward(x: bv64, sh: Shift): bv64
  {
    match sh
    case Keep => x
    case Slide(f, t) => Put(Clear(x, t), f)
    case Lift(f) => Put(x, f)
    case Drop(t) => Clear(x, t)
  }

  /** `from` is set in `x` and `to` is not (unless it is `from` itself). */
  predicate SlideMatches(x: bv64, f: bv64, t: bv64)
  {
    x & f == f && x & t & !f == 0
  }

  predicate Occupied(x: bv64, squares: bv64)
  {
    x & squares == squares
  }

  predicate Vacant(x: bv64, squares: bv64)
  {
    x & squares == 0
  }

  /** The shift matches the bitboard: what leaves is there, and what arrives is not. */
  predicate Matches(x: bv64, sh: Shift)
  {
    match sh
    case Keep => true
    case Slide(f, t) => SlideMatches(x, f, t)
    case Lift(f) => Occupied(x, f)
    case Drop(t) => Vacant(x, t)
  }

  /** The shift made to `side_pieces[s]` when `me` plays `mi` (for a castle, the king's). */
  function SideShift(me: nat, mi: MoveInfo, s: nat): Shift
  {
    match mi.m
    case Normal(f, t) => if s == me then Slide(f, t) else if mi.capturedPiece.Some? then Lift(t) else Keep
    case Promotion(f, t, _) => if s == me then Slide(f, t) else if mi.capturedPiece.Some? then Lift(t) else Keep
    case EnPassant(f, t) => if s == me then Slide(f, t) else Lift(Behind(me, t))
    case Castle(c) =>
      var sq := CastleSquares(c);
      if sq.Some? && s == me then Slide(sq.value.0, sq.value.1) else Keep
  }

  /** The second shift of `side_pieces[s]`: the castling rook's, Keep for every other move. */
  function SideRookShift(me: nat, mi: MoveInfo, s: nat): Shift
  {
    match mi.m
    case Castle(c) =>
      var sq := CastleSquares(c);
      if sq.Some? && s == me then Slide(sq.value.2, sq.value.3) else Keep
    case _ => Keep
  }

  /** The shift made to `pieces[s][pc]` when `me` plays `mi`. */
  function PieceShift(me: nat, mi: MoveInfo, s: nat, pc: nat): Shift
  {
    match mi.m
    case Normal(f, t) =>
      if s == me && pc == mi.piece then Slide(f, t)
      else if s != me && mi.capturedPiece == Some(pc) then Lift(t)
      else Keep
    case Promotion(f, t, q) =>
      if s == me && pc == PAWN && q == PAWN then Slide(f, t)
      else if s == me && pc == PAWN then Lift(f)
      else if s == me && pc == q then Drop(t)
      else if s != me && mi.capturedPiece == Some(pc) then Lift(t)
      else Keep
    case EnPassant(f, t) =>
      if pc != PAWN then Keep
      else if s == me then Slide(f, t)
      else Lift(Behind(me, t))
    case Castle(c) =>
      var sq := CastleSquares(c);
      if sq.Some? && s == me && pc == KING then Slide(sq.value.0, sq.value.1)
      else if sq.Some? && s == me && pc == ROOK then Slide(sq.value.2, sq.value.3)
      else Keep
  }

  /** The shifts of every bitboard: `sides[s]` then `rooks[s]` for `side_pieces[s]`, `pieces[s][pc]` for `pieces[s][pc]`. */
  datatype Effect = Effect(sides: seq<Shift>, rooks: seq<Shift>, pieces: seq<seq<Shift>>)

  predicate EffectShaped(e: Effect)
  {
    |e.sides| == 2 && |e.rooks| == 2 && |e.pieces| == 2 && |e.pieces[0]| == 6 && |e.pieces[1]| == 6
  }

  /** What `me` playing `mi` does to each bitboard. */
  function EffectOf(me: nat, mi: MoveInfo): (e: Effect)
    ensures EffectShaped(e)
  {
    Effect(
      [SideShift(me, mi, 0), SideShift(me, mi, 1)],
      [SideRookShift(me, mi, 0), SideRookShift(me, mi, 1)],
      [ [ PieceShift(me, mi, 0, 0), PieceShift(me, mi, 0, 1), PieceShift(me, mi, 0, 2),
          PieceShift(me, mi, 0, 3), PieceShift(me, mi, 0, 4), PieceShift(me, mi, 0, 5) ],
        [ PieceShift(me, mi, 1, 0), PieceShift(me, mi, 1, 1), PieceShift(me, mi, 1, 2),
          PieceShift(me, mi, 1, 3), PieceShift(me, mi, 1, 4), PieceShift(me, mi, 1, 5) ] ])
  }

  /** Each bitboard of a row after its own shift. */
  function ForwardRow(xs: seq<bv64>, es: seq<Shift>): (r: seq<bv64>)
    requires |xs| == |es|
    ensures |r| == |xs|
  {
    if xs == [] then [] else [Forward(xs[0], es[0])] + ForwardRow(xs[1..], es[1..])
  }

  /** Each bitboard of a row with its own shift taken back. */
  function BackwardRow(xs: seq<bv64>, es: seq<Shift>): (r: seq<bv64>)
    requires |xs| == |es|
    ensures |r| == |xs|
  {
    if xs == [] then [] else [Backward(xs[0], es[0])] + BackwardRow(xs[1..], es[1..])
  }

  /** Each shift of a row matches its bitboard. */
  predicate FitsRow(xs: seq<bv64>, es: seq<Shift>)
    requires |xs| == |es|
  {
    xs == [] || (Matches(xs[0], es[0]) && FitsRow(xs[1..], es[1..]))
  }

  /** Every bitboard after its shifts (for a side board, `sides[s]` then `rooks[s]`). */
  function ForwardAll(b: PiecePosition, e: Effect): (r: PiecePosition)
    requires Shaped(b) && EffectShaped(e)
    ensures Shaped(r)
  {
    PiecePosition(
      ForwardRow(ForwardRow(b.sidePieces, e.sides), e.rooks),
      [ForwardRow(b.pieces[0], e.pieces[0]), ForwardRow(b.pieces[1], e.pieces[1])])
  }

  /** Every bitboard with its shifts taken back in the same order, as `undo_move` does for a castle. */
  function BackwardAll(b: PiecePosition, e: Effect): (r: PiecePosition)
    requires Shaped(b) && EffectShaped(e)
    ensures Shaped(r)
  {
    PiecePosition(
      BackwardRow(BackwardRow(b.sidePieces, e.sides), e.rooks),
      [BackwardRow(b.pieces[0], e.pieces[0]), BackwardRow(b.pieces[1], e.pieces[1])])
  }

  /** Two slides on disjoint squares. */
  predicate SlidesDisjoint(af: bv64, at: bv64, bf: bv64, bt: bv64)
  {
    (af | at) & (bf | bt) == 0
  }

  /** Taking back `a` and `b` in either order gives the same: `b` is Keep, or both slide on disjoint squares. */
  predicate Commute(a: Shift, b: Shift)
  {
    b.Keep? || (a.Slide? && b.Slide? && SlidesDisjoint(a.from, a.to, b.from, b.to))
  }

  predicate CommuteRow(firsts: seq<Shift>, seconds: seq<Shift>)
    requires |firsts| == |seconds|
  {
    firsts == [] || (Commute(firsts[0], seconds[0]) && CommuteRow(firsts[1..], seconds[1..]))
  }

  /** Every shift matches its bitboard, a rook's matching the side board after the king's. */
  predicate FitsAll(b: PiecePosition, e: Effect)
    requires Shaped(b) && EffectShaped(e)
  {
    && FitsRow(b.sidePieces, e.sides)
    && FitsRow(ForwardRow(b.sidePieces, e.sides), e.rooks)
    && FitsRow(b.pieces[0], e.pieces[0])
    && FitsRow(b.pieces[1], e.pieces[1])
  }

  /** The bitboards after `me` plays `mi` (the board part of `apply_move`). */
  function MovedBoard(b: PiecePosition, me: nat, mi: MoveInfo): (r: PiecePosition)
    requires Shaped(b)
    ensures Shaped(r)
  {
    ForwardAll(b, EffectOf(me, mi))
  }

  /** The bitboards after taking back `mi`, played by `me` (the board part of `undo_move`). */
  function UnmovedBoard(b: PiecePosition, me: nat, mi: MoveInfo): (r: PiecePosition)
    requires Shaped(b)
    ensures Shaped(r)
  {
    BackwardAll(b, EffectOf(me, mi))
  }

  /**
   * `mi` matches the board for `me`: every bitboard's shift matches it. So the moving
   * piece (and the castling rook) stands on its from square, the target holds no own
   * piece, and the captured piece stands on the target (behind it for en passant).
   * This is what makes `undo_move` an exact inverse.
   */
  predicate Fits(b: PiecePosition, me: nat, mi: MoveInfo)
    requires Shaped(b)
  {
    FitsAll(b, EffectOf(me, mi))
  }

  // ---- The state after a move ----

  /** What `apply_move` notices about king and rooks, for the castling rights. */
  datatype CastlingEvents = CastlingEvents(
    kingMoved: bool,
    kingRookMoved: bool,
    queenRookMoved: bool,
    oppositeQueenRookCaptured: bool,
    oppositeKingRookCaptured: bool)

  function Events(b: PiecePosition, me: nat, mi: MoveInfo): CastlingEvents
    requires Shaped(b) && me < 2
  {
    var ownRooks := b.pieces[me][ROOK];
    var oppositeRooks := b.pieces[Opposite(me)][ROOK];
    var kingMoved := mi.piece == KING;
    var rookCaptured := mi.capturedPiece == Some(ROOK);
    var oppQueenRook := if me == WHITE then A8 else A1;
    var oppKingRook := if me == WHITE then H8 else H1;
    match mi.m
    case Normal(f, t) =>
      var rookMove := !kingMoved && mi.piece == ROOK;
      CastlingEvents(
        kingMoved,
        rookMove && Share(if me == WHITE then H1 else H8, ownRooks, f),
        rookMove && Share(if me == WHITE then A1 else A8, ownRooks, f),
        rookCaptured && Share(oppQueenRook, oppositeRooks, t),
        rookCaptured && Share(oppKingRook, oppositeRooks, t))
    case Promotion(_, t, _) =>
      CastlingEvents(
        kingMoved, false, false,
        rookCaptured && Share(oppQueenRook, oppositeRooks, t),
        rookCaptured && Share(oppKingRook, oppositeRooks, t))
    case EnPassant(_, _) => CastlingEvents(kingMoved, false, false, false, false)
    case Castle(c) =>
      CastlingEvents(
        kingMoved,
        c == WHITE_KING_SIDE || c == BLACK_KING_SIDE,
        c == WHITE_QUEEN_SIDE || c == BLACK_QUEEN_SIDE,
        false, false)
  }

  /** The king-side right of `side` (white's for any index but black's). */
  function KingSide(side: nat): bv8
  {
    if side == BLACK then BLACK_KING_SIDE else WHITE_KING_SIDE
  }

  /** The queen-side right of `side` (white's for any index but black's). */
  function QueenSide(side: nat): bv8
  {
    if side == BLACK then BLACK_QUEEN_SIDE else WHITE_QUEEN_SIDE
  }

  /** `flag` if the event happened, no flag otherwise. */
  function FlagIf(happened: bool, flag: bv8): bv8
  {
    if happened then flag else 0
  }

  /** The rights `me` loses through `e`, and those the opponent loses. */
  function LostRights(me: nat, e: CastlingEvents): bv8
  {
    OwnLost(me, e) | FlagIf(e.oppositeQueenRookCaptured, QueenSide(Opposite(me))) | FlagIf(e.oppositeKingRookCaptured, KingSide(Opposite(me)))
  }

  predicate AnyEvent(e: CastlingEvents)
  {
    e.kingMoved || e.kingRookMoved || e.queenRookMoved || e.oppositeKingRookCaptured || e.oppositeQueenRookCaptured
  }

  /** `castling &= !flag`. */
  function Revoke(c: bv8, flag: bv8): bv8
  {
    c & !flag
  }

  /** `if happened { castling &= !flag }`. */
  function RevokeIf(c: bv8, happened: bool, flag: bv8): bv8
  {
    if happened then Revoke(c, flag) else c
  }

  /** The mover's own rights after the king and rook events. */
  function OwnRightsAfter(c: bv8, me: nat, e: CastlingEvents): bv8
  {
    if e.kingMoved then Revoke(Revoke(c, KingSide(me)), QueenSide(me))
    else RevokeIf(RevokeIf(c, e.kingRookMoved, KingSide(me)), e.queenRookMoved, QueenSide(me))
  }

  /**
   * The castling rights after `mi`, flag by flag as `apply_move` clears them: the
   * mover's, then the opponent's queen and king rook; nothing happens once they are 0.
   */
  function CastlingAfter(c: bv8, me: nat, e: CastlingEvents): bv8
  {
    if c == NO_CASTLING then c else RightsAfter(c, me, e)
  }

  /** The rights after the flag clearing: the mover's, then the opponent's queen and king rook. */
  function RightsAfter(c: bv8, me: nat, e: CastlingEvents): bv8
  {
    RevokeIf(RevokeIf(OwnRightsAfter(c, me, e), e.oppositeQueenRookCaptured, QueenSide(Opposite(me))),
      e.oppositeKingRookCaptured, KingSide(Opposite(me)))
  }

  /** The flags the mover loses through its own king and rooks. */
  function OwnLost(me: nat, e: CastlingEvents): bv8
  {
    if e.kingMoved then KingSide(me) | QueenSide(me)
    else FlagIf(e.kingRookMoved, KingSide(me)) | FlagIf(e.queenRookMoved, QueenSide(me))
  }

  lemma RevokeIfClears(c: bv8, happened: bool, flag: bv8)
    ensures RevokeIf(c, happened, flag) == Revoke(c, FlagIf(happened, flag))
  {}

  lemma RevokeJoin(c: bv8, a: bv8, b: bv8)
    ensures Revoke(Revoke(c, a), b) == Revoke(c, a | b)
  {}

  lemma OwnRightsClear(c: bv8, me: nat, e: CastlingEvents)
    ensures OwnRightsAfter(c, me, e) == Revoke(c, OwnLost(me, e))
  {
    if e.kingMoved {
      RevokeJoin(c, KingSide(me), QueenSide(me));
    } else {
      RevokeIfClears(c, e.kingRookMoved, KingSide(me));
      RevokeIfClears(RevokeIf(c, e.kingRookMoved, KingSide(me)), e.queenRookMoved, QueenSide(me));
      RevokeJoin(c, FlagIf(e.kingRookMoved, KingSide(me)), FlagIf(e.queenRookMoved, QueenSide(me)));
    }
  }

  lemma RevokeMore(c1: bv8, c: bv8, lost: bv8, happened: bool, flag: bv8)
    requires c1 == Revoke(c, lost)
    ensures RevokeIf(c1, happened, flag) == Revoke(c, lost | FlagIf(happened, flag))
  {
    RevokeIfClears(c1, happened, flag);
    RevokeJoin(c, lost, FlagIf(happened, flag));
  }

  lemma RevokeIs(c: bv8, flag: bv8)
    ensures Revoke(c, flag) == c & !flag
  {}

  /** Two conditional clearings after a clearing of `own` clear `own` and the two flags that happened. */
  lemma RevokeTwoMore(c: bv8, own: bv8, x: bv8, h1: bool, f1: bv8, h2: bool, f2: bv8, r: bv8, lost: bv8)
    requires x == Revoke(c, own)
    requires r == RevokeIf(RevokeIf(x, h1, f1), h2, f2)
    requires lost == own | FlagIf(h1, f1) | FlagIf(h2, f2)
    ensures r == Revoke(c, lost)
  {
    RevokeMore(x, c, own, h1, f1);
    RevokeMore(RevokeIf(x, h1, f1), c, own | FlagIf(h1, f1), h2, f2);
  }

  /** The flag clearing takes from the rights exactly the ones the events cost. */
  lemma RightsAfterClears(c: bv8, me: nat, e: CastlingEvents)
    ensures RightsAfter(c, me, e) == Revoke(c, LostRights(me, e))
  {
    OwnRightsClear(c, me, e);
    RevokeTwoMore(c, OwnLost(me, e), OwnRightsAfter(c, me, e),
      e.oppositeQueenRookCaptured, QueenSide(Opposite(me)), e.oppositeKingRookCaptured, KingSide(Opposite(me)),
      RightsAfter(c, me, e), LostRights(me, e));
  }

  /** Once any right is left, the rights after a move are those before it less the ones the events cost. */
  lemma CastlingAfterClears(c: bv8, me: nat, e: CastlingEvents)
    requires c != NO_CASTLING
    ensures CastlingAfter(c, me, e) == Revoke(c, LostRights(me, e))
  {
    RightsAfterClears(c, me, e);
  }

  /** A move never adds a castling right. */
  lemma CastlingOnlyLoses(c: bv8, me: nat, e: CastlingEvents)
    ensures CastlingAfter(c, me, e) & !c == 0
  {
    if c != NO_CASTLING {
      CastlingAfterClears(c, me, e);
    }
  }

  /** So the rights stay a 4-bit value, an index into the 16 castling keys. */
  lemma CastlingAfterBelow(c: bv8, me: nat, e: CastlingEvents)
    requires c < 16
    ensures CastlingAfter(c, me, e) < 16
  {
    CastlingOnlyLoses(c, me, e);
    SubFlagsBelow(c, CastlingAfter(c, me, e));
  }

  /** `check_is_pawn_moving_2_squares`: an own pawn on `f` and `t` two ranks away. */
  predicate PawnMovingTwoSquares(b: PiecePosition, me: nat, f: bv64, t: bv64)
    requires Shaped(b) && me < 2
  {
    b.pieces[me][PAWN] & f != 0 && (f == t >> 16 || f == t << 16)
  }

  /** The en-passant square after `mi`: the square a double-pushing pawn passed over, else NONE. */
  function NextEnPassant(b: PiecePosition, me: nat, mi: MoveInfo): bv64
    requires Shaped(b) && me < 2
  {
    if mi.m.Normal? && mi.piece == PAWN && PawnMovingTwoSquares(b, me, mi.m.from, mi.m.to) && mi.m.to != NONE
    then Behind(me, mi.m.to)
    else NONE
  }

  function NextState(p: PositionValue, mi: MoveInfo): BoardState
    requires Shaped(p.board) && p.sideToMove < 2
  {
    var isCapture := mi.capturedPiece.Some?;
    BoardState(
      if isCapture then 0 else p.state.sinceLastCapture + 1,
      if isCapture || mi.piece == PAWN then 0 else p.state.sinceLastCaptureOrPawnMovement + 1,
      CastlingAfter(p.state.castling, p.sideToMove, Events(p.board, p.sideToMove, mi)),
      NextEnPassant(p.board, p.sideToMove, mi))
  }

  // ---- The hash after a move ----

  /** `h` with the keys of the pieces `apply_move` removes and adds XORed in, in the order it does so. */
  function PiecesHash(k: ZobristHashes, me: nat, mi: MoveInfo, h: bv64): bv64
    requires KeysShaped(k) && me < 2 && MoveInRange(me, mi)
  {
    match mi.m
    case Normal(f, t) =>
      var h1 := Toggle(Toggle(h, PieceKey(k, me, mi.piece, TrailingZeros(f))), PieceKey(k, me, mi.piece, TrailingZeros(t)));
      if mi.capturedPiece.Some? then Toggle(h1, PieceKey(k, Opposite(me), mi.capturedPiece.value, TrailingZeros(t))) else h1
    case Promotion(f, t, q) =>
      var h1 := Toggle(Toggle(h, PieceKey(k, me, PAWN, TrailingZeros(f))), PieceKey(k, me, q, TrailingZeros(t)));
      if mi.capturedPiece.Some? then Toggle(h1, PieceKey(k, Opposite(me), mi.capturedPiece.value, TrailingZeros(t))) else h1
    case EnPassant(f, t) =>
      var h1 := Toggle(Toggle(h, PieceKey(k, me, PAWN, TrailingZeros(f))), PieceKey(k, me, PAWN, TrailingZeros(t)));
      Toggle(h1, PieceKey(k, Opposite(me), PAWN, TrailingZeros(Behind(me, t))))
    case Castle(c) =>
      var sq := CastleSquares(c);
      if sq.Some? then
        var h1 := Toggle(Toggle(h, PieceKey(k, me, KING, TrailingZeros(sq.value.0))), PieceKey(k, me, KING, TrailingZeros(sq.value.1)));
        Toggle(Toggle(h1, PieceKey(k, me, ROOK, TrailingZeros(sq.value.2))), PieceKey(k, me, ROOK, TrailingZeros(sq.value.3)))
      else h
  }

  /**
   * The hash after `mi`: the piece keys, then the old and new en-passant keys if the
   * square changed, the old and new castling keys if the rights changed, the new side's key.
   */
  function NextHash(p: PositionValue, mi: MoveInfo): bv64
    requires Applicable(p, mi)
  {
    var k := p.keys;
    var me := p.sideToMove;
    var next := NextState(p, mi);
    var e := Events(p.board, me, mi);
    var h1 := PiecesHash(k, me, mi, p.zobrist);
    var h2 := EnPassantHash(k, h1, p.state.enPassant, next.enPassant);
    CastlingAfterBelow(p.state.castling, me, e);
    var h3 := CastlingHash(k, h2, p.state.castling, next.castling, e);
    Toggle(h3, SideKey(k, Opposite(me)))
  }

  /** `h` with the keys of the old and the new en-passant square XORed in when the square changed. */
  function EnPassantHash(k: ZobristHashes, h: bv64, before: bv64, after: bv64): bv64
    requires KeysShaped(k)
  {
    if after != before then Toggle(Toggle(h, EnPassantKey(k, before)), EnPassantKey(k, after)) else h
  }

  /**
   * `h` with the keys of the old and the new castling rights XORed in when some right was
   * left, some castling event happened and the rights changed.
   */
  function CastlingHash(k: ZobristHashes, h: bv64, before: bv8, after: bv8, e: CastlingEvents): bv64
    requires KeysShaped(k) && before < 16 && after < 16
  {
    if before != NO_CASTLING && AnyEvent(e) && after != before
    then Toggle(Toggle(h, CastlingKey(k, before)), CastlingKey(k, after)) else h
  }

  // ---- apply_move and undo_move on values ----

  /** Clearing flags keeps the castling rights a 4-bit value. */
  lemma SubFlagsBelow(c: bv8, r: bv8)
    requires c < 16 && r & !c == 0
    ensures r < 16
  {}

  /** The position after `apply_move(mi)`. */
  function Applied(p: PositionValue, mi: MoveInfo): (r: PositionValue)
    requires Applicable(p, mi)
    ensures WellFormed(r)
  {
    CastlingAfterBelow(p.state.castling, p.sideToMove, Events(p.board, p.sideToMove, mi));
    PositionValue(
      MovedBoard(p.board, p.sideToMove, mi),
      Opposite(p.sideToMove),
      p.halfMoveNumber + 1,
      NextState(p, mi),
      p.statePrev + [p.state],
      NextHash(p, mi),
      p.zobristPrev + [p.zobrist],
      p.keys)
  }

  /** `Applied` field by field, for a board, state and hash already known to be the moved ones. */
  lemma AppliedFields(p: PositionValue, mi: MoveInfo, board: PiecePosition, next: BoardState, hash: bv64)
    requires Applicable(p, mi)
    requires board == MovedBoard(p.board, p.sideToMove, mi) && next == NextState(p, mi) && hash == NextHash(p, mi)
    ensures Applied(p, mi) == PositionValue(board, Opposite(p.sideToMove), p.halfMoveNumber + 1, next,
      p.statePrev + [p.state], hash, p.zobristPrev + [p.zobrist], p.keys)
  {}

  /** The position after `undo_move(mi)`: the side flips back and the last state and hash are popped. */
  function Undone(p: PositionValue, mi: MoveInfo): (r: PositionValue)
    requires Undoable(p, mi)
    ensures WellFormed(r)
  {
    var mover := Opposite(p.sideToMove);
    PositionValue(
      UnmovedBoard(p.board, mover, mi),
      mover,
      p.halfMoveNumber - 1,
      p.statePrev[|p.statePrev| - 1],
      p.statePrev[..|p.statePrev| - 1],
      p.zobristPrev[|p.zobristPrev| - 1],
      p.zobristPrev[..|p.zobristPrev| - 1],
      p.keys)
  }
}
