/**
 * Move generation (movegen/generator.rs): pseudo-legal moves per piece in three modes,
 * legality by make / test / unmake, and move ordering.
 *
 * Each generator peels the lowest set bit of a bitboard in a `while` loop and pushes
 * moves onto a list. The functions below say which list that is, in the order the
 * engine builds it; the methods build it the engine's way and are proved to give it.
 */
module Generator {
  import opened Bits
  import opened Wrappers
  import opened Models
  import opened Magic
  import opened Game
  import opened MakeUnmake

  datatype MoveGenKind = OnlyCaptures | OnlySilent | All

  // ---- Square helpers ----

  /** `get_occupancy`: every occupied square. */
  function GetOccupancy(b: PiecePosition): bv64
    requires Shaped(b)
  {
    b.sidePieces[WHITE] | b.sidePieces[BLACK]
  }

  /** `is_square_empty`: no piece of either side on `square`. */
  predicate IsSquareEmpty(b: PiecePosition, square: bv64)
    requires Shaped(b)
  {
    GetOccupancy(b) & square == 0
  }

  /** `is_square_enemy`: a piece of the side not to move on `square`. */
  predicate IsSquareEnemy(b: PiecePosition, me: nat, square: bv64)
    requires Shaped(b) && me < 2
  {
    b.sidePieces[Opposite(me)] & square != 0
  }

  /** The first piece index from `i` on whose bitboard meets `square`. */
  function FirstPieceOn(row: seq<bv64>, square: bv64, i: nat): (r: Option<nat>)
    requires i <= |row|
    ensures r.Some? ==> i <= r.value < |row| && !Disjoint(row[r.value], square)
    ensures forall j | i <= j < (if r.Some? then r.value else |row|) :: Disjoint(row[j], square)
    decreases |row| - i
  {
    if i == |row| then None
    else if !Disjoint(row[i], square) then Some(i)
    else FirstPieceOn(row, square, i + 1)
  }

  /**
   * `get_enemy_piece_in_square`: the first opponent piece found on `square`, looked for
   * when the caller is sure the square is an enemy's or it is one; None otherwise.
   */
  function EnemyPieceInSquare(b: PiecePosition, me: nat, square: bv64, sure: bool): Option<nat>
    requires Shaped(b) && me < 2
  {
    if sure || IsSquareEnemy(b, me, square) then FirstPieceOn(b.pieces[Opposite(me)], square, 0) else None
  }

  /** `get_enemy_piece_in_square` as the engine runs it: a scan of the opponent's six bitboards. */
  method GetEnemyPieceInSquare(b: PiecePosition, me: nat, square: bv64, sure: bool) returns (r: Option<nat>)
    requires Shaped(b) && me < 2
    ensures r == EnemyPieceInSquare(b, me, square, sure)
  {
    if sure || IsSquareEnemy(b, me, square) {
      var row := b.pieces[Opposite(me)];
      var index := 0;
      while index < |row|
        invariant 0 <= index <= |row|
        invariant FirstPieceOn(row, square, index) == FirstPieceOn(row, square, 0)
      {
        if row[index] & square != 0 {
          assert !Disjoint(row[index], square);
          return Some(index);
        }
        index := index + 1;
      }
      return None;
    }
    return None;
  }

  /** A piece is found on a square exactly when some piece board meets it, and it is the first such board. */
  lemma {:induction false} FirstPieceOnFinds(row: seq<bv64>, square: bv64, i: nat, k: nat)
    requires i <= k < |row| && !Disjoint(row[k], square)
    ensures FirstPieceOn(row, square, i).Some?
    ensures FirstPieceOn(row, square, i).value <= k
    decreases k - i
  {
    if Disjoint(row[i], square) {
      FirstPieceOnFinds(row, square, i + 1, k);
    }
  }

  // ---- Targets of one piece ----

  /** The captured piece a mode records for a move to `square`. */
  function Captured(b: PiecePosition, me: nat, square: bv64, kind: MoveGenKind): Option<nat>
    requires Shaped(b) && me < 2
  {
    match kind
    case All => EnemyPieceInSquare(b, me, square, false)
    case OnlyCaptures => EnemyPieceInSquare(b, me, square, true)
    case OnlySilent => None
  }

  /** The attacked squares a mode keeps: not own pieces, enemy pieces, or empty squares. */
  function KindMask(b: PiecePosition, me: nat, attacks: bv64, kind: MoveGenKind): bv64
    requires Shaped(b) && me < 2
  {
    match kind
    case All => attacks & !b.sidePieces[me]
    case OnlyCaptures => attacks & b.sidePieces[Opposite(me)]
    case OnlySilent => attacks & !GetOccupancy(b)
  }

  /** The Normal moves from `from` to each square of `mask`, lowest square first. */
  function TargetMoves(b: PiecePosition, me: nat, from: bv64, mask: bv64, piece: nat, kind: MoveGenKind): seq<MoveInfo>
    requires Shaped(b) && me < 2
    decreases PopCount(mask)
  {
    if mask == 0 then []
    else
      var to := Lowest(mask);
      [MoveInfo(Normal(from, to), piece, Captured(b, me, to, kind))] + TargetMoves(b, me, from, mask & (mask - 1), piece, kind)
  }

  /** The inner `while move_mask > 0` loop of each generator: one move per square of the mask, pushed onto `moves0`. */
  method PushTargets(b: PiecePosition, me: nat, from: bv64, mask0: bv64, piece: nat, kind: MoveGenKind, moves0: seq<MoveInfo>)
    returns (moves: seq<MoveInfo>)
    requires Shaped(b) && me < 2
    ensures moves == moves0 + TargetMoves(b, me, from, mask0, piece, kind)
  {
    hide Lowest, TrailingZeros, Bit;
    moves := moves0;
    var mask := mask0;
    while mask > 0
      invariant moves + TargetMoves(b, me, from, mask, piece, kind) == moves0 + TargetMoves(b, me, from, mask0, piece, kind)
      decreases PopCount(mask)
    {
      var moveSquareIndex := TrailingZeros(mask);
      TrailingZerosBit(mask);
      var moveSquare := Bit(moveSquareIndex);
      var captured: Option<nat>;
      if kind == OnlySilent {
        captured := None;
      } else {
        captured := GetEnemyPieceInSquare(b, me, moveSquare, kind == OnlyCaptures);
      }
      moves := moves + [MoveInfo(Normal(from, moveSquare), piece, captured)];
      mask := mask & (mask - 1);
    }
  }

  // ---- Knights, king, rooks, bishops, queens ----

  /**
   * The attack tables the generators read: the rook and bishop lookups of the `MAGIC`
   * global (generator.rs:6-8), as functions of the square index and the occupancy, and
   * the knight and king tables, by square index. `MAGIC_LOOKUPS` holds the ones the
   * engine uses; the generators take the tables as a parameter so that their proofs do
   * not depend on the tables' contents.
   */
  datatype Lookups = Lookups(
    rook: (nat, bv64) -> bv64,
    bishop: (nat, bv64) -> bv64,
    knight: nat -> bv64,
    king: nat -> bv64)

  const MAGIC_LOOKUPS: Lookups := Lookups(
    (index: nat, occupancy: bv64) => if index < 64 then MagicAttacks(Rook, index, occupancy) else 0,
    (index: nat, occupancy: bv64) => if index < 64 then MagicAttacks(Bishop, index, occupancy) else 0,
    (index: nat) => if index < 64 then KNIGHTS_LOOKUP[index] else 0,
    (index: nat) => if index < 64 then KING_LOOKUP[index] else 0)

  /** `MAGIC_LOOKUPS` answers as an initialised `MagicBitboard` does. */
  lemma MagicLookupsAgree(magic: MagicBitboard, index: nat, occupancy: bv64)
    requires magic.Initialized() && index < 64
    ensures MAGIC_LOOKUPS.rook(index, occupancy) == magic.GetRookAttacks(index, occupancy)
    ensures MAGIC_LOOKUPS.bishop(index, occupancy) == magic.GetBishopAttacks(index, occupancy)
  {
    InitializedRookLookup(magic, index, occupancy);
    InitializedBishopLookup(magic, index, occupancy);
  }

  /**
   * The squares a piece on square `index` attacks: the knight and king tables, the
   * rook and bishop lookups for the occupancy, and their union for a queen.
   */
  function PieceAttacks(lk: Lookups, piece: nat, index: nat, occupancy: bv64): bv64
    requires index < 64
  {
    if piece == KNIGHT then lk.knight(index)
    else if piece == KING then lk.king(index)
    else if piece == ROOK then lk.rook(index, occupancy)
    else if piece == BISHOP then lk.bishop(index, occupancy)
    else lk.bishop(index, occupancy) | lk.rook(index, occupancy)
  }

  /** The moves of the pieces on `pieces`, lowest square first, each with its targets lowest first. */
  function PiecesMoves(lk: Lookups, b: PiecePosition, me: nat, pieces: bv64, piece: nat, kind: MoveGenKind): seq<MoveInfo>
    requires Shaped(b) && me < 2
    decreases PopCount(pieces)
  {
    if pieces == 0 then []
    else
      var attacks := PieceAttacks(lk, piece, TrailingZeros(pieces), GetOccupancy(b));
      TargetMoves(b, me, Lowest(pieces), KindMask(b, me, attacks, kind), piece, kind)
      + PiecesMoves(lk, b, me, pieces & (pieces - 1), piece, kind)
  }

  /** What `get_knight_moves`, `get_rook_moves`, `get_bishop_moves` and `get_queen_moves` return. */
  function PieceMoves(lk: Lookups, b: PiecePosition, me: nat, piece: nat, kind: MoveGenKind): seq<MoveInfo>
    requires Shaped(b) && me < 2 && piece < 6
  {
    PiecesMoves(lk, b, me, b.pieces[me][piece], piece, kind)
  }

  /** One step of `PiecesMoves`: the lowest piece's moves, then the rest. */
  lemma PiecesMovesStep(lk: Lookups, b: PiecePosition, me: nat, pieces: bv64, piece: nat, kind: MoveGenKind, index: nat, square: bv64)
    requires Shaped(b) && me < 2 && pieces != 0
    requires index == TrailingZeros(pieces) && square == Lowest(pieces)
    ensures index < 64 && PopCount(pieces & (pieces - 1)) < PopCount(pieces)
    ensures PiecesMoves(lk, b, me, pieces, piece, kind) ==
      TargetMoves(b, me, square, KindMask(b, me, PieceAttacks(lk, piece, index, GetOccupancy(b)), kind), piece, kind)
      + PiecesMoves(lk, b, me, pieces & (pieces - 1), piece, kind)
  {
    hide TrailingZeros, Lowest, KindMask, PieceAttacks, GetOccupancy, TargetMoves;
  }

  lemma PiecesMovesNone(lk: Lookups, b: PiecePosition, me: nat, piece: nat, kind: MoveGenKind)
    requires Shaped(b) && me < 2
    ensures PiecesMoves(lk, b, me, 0, piece, kind) == []
  {}

  /** The outer `while pieces > 0` loop shared by the knight, rook, bishop and queen generators. */
  method GetPieceMoves(lk: Lookups, p: PositionValue, piece: nat, kind: MoveGenKind) returns (moves: seq<MoveInfo>)
    requires WellFormed(p) && piece < 6
    ensures moves == PieceMoves(lk, p.board, p.sideToMove, piece, kind)
  {
    hide Lowest, TrailingZeros, Bit, KindMask, GetOccupancy, TargetMoves, PieceAttacks, PiecesMoves, PopCount;
    var b, me := p.board, p.sideToMove;
    var pieces := b.pieces[me][piece];
    var occupancy := GetOccupancy(b);
    moves := [];
    while pieces > 0
      invariant moves + PiecesMoves(lk, b, me, pieces, piece, kind) == PiecesMoves(lk, b, me, b.pieces[me][piece], piece, kind)
      decreases PopCount(pieces)
    {
      var squareIndex := TrailingZeros(pieces);
      TrailingZerosBit(pieces);
      var square := Bit(squareIndex);
      PiecesMovesStep(lk, b, me, pieces, piece, kind, squareIndex, square);
      var moveMask := KindMask(b, me, PieceAttacks(lk, piece, squareIndex, occupancy), kind);
      ghost var rest := PiecesMoves(lk, b, me, pieces & (pieces - 1), piece, kind);
      ghost var before := moves;
      moves := PushTargets(b, me, square, moveMask, piece, kind, moves);
      assert moves + rest == before + (TargetMoves(b, me, square, moveMask, piece, kind) + rest);
      pieces := pieces & (pieces - 1);
    }
    PiecesMovesNone(lk, b, me, piece, kind);
  }

  /** `get_knight_moves` (generator.rs:573-639). */
  method GetKnightMoves(lk: Lookups, p: PositionValue, kind: MoveGenKind) returns (moves: seq<MoveInfo>)
    requires WellFormed(p)
    ensures moves == PieceMoves(lk, p.board, p.sideToMove, KNIGHT, kind)
  {
    moves := GetPieceMoves(lk, p, KNIGHT, kind);
  }

  /** `get_rook_moves` (generator.rs:388-457). */
  method GetRookMoves(lk: Lookups, p: PositionValue, kind: MoveGenKind) returns (moves: seq<MoveInfo>)
    requires WellFormed(p)
    ensures moves == PieceMoves(lk, p.board, p.sideToMove, ROOK, kind)
  {
    moves := GetPieceMoves(lk, p, ROOK, kind);
  }

  /** `get_bishop_moves` (generator.rs:310-386); its `if bishops > 0` guard changes nothing. */
  method GetBishopMoves(lk: Lookups, p: PositionValue, kind: MoveGenKind) returns (moves: seq<MoveInfo>)
    requires WellFormed(p)
    ensures moves == PieceMoves(lk, p.board, p.sideToMove, BISHOP, kind)
  {
    moves := GetPieceMoves(lk, p, BISHOP, kind);
  }

  /** `get_queen_moves` (generator.rs:238-308). */
  method GetQueenMoves(lk: Lookups, p: PositionValue, kind: MoveGenKind) returns (moves: seq<MoveInfo>)
    requires WellFormed(p)
    ensures moves == PieceMoves(lk, p.board, p.sideToMove, QUEEN, kind)
  {
    moves := GetPieceMoves(lk, p, QUEEN, kind);
  }
  // ---- King ----

  /** A castle the mover may make: its right is held and the squares between king and rook are empty. */
  function CastleIf(castling: bv8, flag: bv8, free: bool): seq<MoveInfo>
  {
    if castling & flag != 0 && free then [MoveInfo(Castle(flag), KING, None)] else []
  }

  /** The castles of `get_king_moves`: king side first, then queen side, on the mover's back rank. */
  function CastleMoves(b: PiecePosition, me: nat, castling: bv8): seq<MoveInfo>
    requires Shaped(b)
  {
    if me == WHITE then
      CastleIf(castling, WHITE_KING_SIDE, IsSquareEmpty(b, F1) && IsSquareEmpty(b, G1))
      + CastleIf(castling, WHITE_QUEEN_SIDE, IsSquareEmpty(b, B1) && IsSquareEmpty(b, C1) && IsSquareEmpty(b, D1))
    else
      CastleIf(castling, BLACK_KING_SIDE, IsSquareEmpty(b, F8) && IsSquareEmpty(b, G8))
      + CastleIf(castling, BLACK_QUEEN_SIDE, IsSquareEmpty(b, B8) && IsSquareEmpty(b, C8) && IsSquareEmpty(b, D8))
  }

  /**
   * What `get_king_moves` returns: the king table's targets from the (lowest) king square,
   * then the castles unless only captures are asked for. An empty king board indexes
   * the 64-entry table at 64, which panics.
   */
  function KingMoves(lk: Lookups, b: PiecePosition, me: nat, castling: bv8, kind: MoveGenKind): seq<MoveInfo>
    requires Shaped(b) && me < 2 && b.pieces[me][KING] != 0
  {
    var king := b.pieces[me][KING];
    TargetMoves(b, me, Lowest(king), KindMask(b, me, lk.king(TrailingZeros(king)), kind), KING, kind)
    + (if kind == OnlyCaptures then [] else CastleMoves(b, me, castling))
  }

  /** The castling checks of `get_king_moves`, pushing onto `moves0`. */
  method PushCastles(b: PiecePosition, me: nat, castling: bv8, moves0: seq<MoveInfo>) returns (moves: seq<MoveInfo>)
    requires Shaped(b)
    ensures moves == moves0 + CastleMoves(b, me, castling)
  {
    moves := moves0;
    if me == WHITE {
      if castling & WHITE_KING_SIDE > 0 {
        if IsSquareEmpty(b, F1) && IsSquareEmpty(b, G1) {
          moves := moves + [MoveInfo(Castle(WHITE_KING_SIDE), KING, None)];
        }
      }
      if castling & WHITE_QUEEN_SIDE > 0 {
        if IsSquareEmpty(b, B1) && IsSquareEmpty(b, C1) && IsSquareEmpty(b, D1) {
          moves := moves + [MoveInfo(Castle(WHITE_QUEEN_SIDE), KING, None)];
        }
      }
    } else {
      if castling & BLACK_KING_SIDE > 0 {
        if IsSquareEmpty(b, F8) && IsSquareEmpty(b, G8) {
          moves := moves + [MoveInfo(Castle(BLACK_KING_SIDE), KING, None)];
        }
      }
      if castling & BLACK_QUEEN_SIDE > 0 {
        if IsSquareEmpty(b, B8) && IsSquareEmpty(b, C8) && IsSquareEmpty(b, D8) {
          moves := moves + [MoveInfo(Castle(BLACK_QUEEN_SIDE), KING, None)];
        }
      }
    }
  }

  /** `KingMoves` from the king's square index and square. */
  lemma KingMovesUnfold(lk: Lookups, b: PiecePosition, me: nat, castling: bv8, kind: MoveGenKind, index: nat, square: bv64, castles: seq<MoveInfo>)
    requires Shaped(b) && me < 2 && b.pieces[me][KING] != 0
    requires index == TrailingZeros(b.pieces[me][KING]) && square == Lowest(b.pieces[me][KING])
    requires castles == if kind == OnlyCaptures then [] else CastleMoves(b, me, castling)
    ensures index < 64
    ensures KingMoves(lk, b, me, castling, kind) == TargetMoves(b, me, square, KindMask(b, me, lk.king(index), kind), KING, kind) + castles
  {
    hide TrailingZeros, Lowest, KindMask, TargetMoves, CastleMoves;
  }

  /** `get_king_moves` (generator.rs:459-571). */
  method GetKingMoves(lk: Lookups, p: PositionValue, kind: MoveGenKind) returns (moves: seq<MoveInfo>)
    requires WellFormed(p) && p.board.pieces[p.sideToMove][KING] != 0
    ensures moves == KingMoves(lk, p.board, p.sideToMove, p.state.castling, kind)
  {
    hide Lowest, TrailingZeros, Bit, KindMask, GetOccupancy, TargetMoves, CastleMoves, PopCount;
    var b, me := p.board, p.sideToMove;
    var king := b.pieces[me][KING];
    var squareIndex := TrailingZeros(king);
    TrailingZerosBit(king);
    var square := Bit(squareIndex);
    var moveMask := KindMask(b, me, lk.king(squareIndex), kind);
    moves := PushTargets(b, me, square, moveMask, KING, kind, []);
    ghost var targets := moves;
    if kind == All || kind == OnlySilent {
      moves := PushCastles(b, me, p.state.castling, moves);
    }
    KingMovesUnfold(lk, b, me, p.state.castling, kind, squareIndex, square, moves[|targets|..]);
  }

  // ---- Pawns ----

  /** The rank a pawn of `me` promotes from: the seventh for white, the second for black. */
  function PromotionRow(me: nat): bv64
  {
    if me == WHITE then SEVENTH_ROW else SECOND_ROW
  }

  /** The rank a pawn of `me` starts on, from which it may move two squares. */
  function StartRow(me: nat): bv64
  {
    if me == WHITE then SECOND_ROW else SEVENTH_ROW
  }

  /** The square one rank ahead of `square` for `me` (zero off the board). */
  function OneAhead(me: nat, square: bv64): bv64
  {
    if me == WHITE then square << 8 else square >> 8
  }

  /** The square two ranks ahead of `square` for `me` (zero off the board). */
  function TwoAhead(me: nat, square: bv64): bv64
  {
    if me == WHITE then square << 16 else square >> 16
  }

  /** The diagonal capture square towards the a-file; NONE from the a-file. */
  function CaptureLeft(me: nat, square: bv64, index: nat): bv64
  {
    if index % 8 == 0 then NONE else if me == WHITE then square << 7 else square >> 9
  }

  /** The diagonal capture square towards the h-file; NONE from the h-file. */
  function CaptureRight(me: nat, square: bv64, index: nat): bv64
  {
    if index % 8 == 7 then NONE else if me == WHITE then square << 9 else square >> 7
  }

  /** A pawn move to `to`: one Normal move, or from the promotion rank the four promotions queen, rook, knight, bishop. */
  function PawnStep(from: bv64, to: bv64, isPromotion: bool, captured: Option<nat>): seq<MoveInfo>
  {
    if !isPromotion then [MoveInfo(Normal(from, to), PAWN, captured)]
    else
      [MoveInfo(Promotion(from, to, QUEEN), PAWN, captured),
       MoveInfo(Promotion(from, to, ROOK), PAWN, captured),
       MoveInfo(Promotion(from, to, KNIGHT), PAWN, captured),
       MoveInfo(Promotion(from, to, BISHOP), PAWN, captured)]
  }

  /** The single push of the pawn on `square`, if the square ahead is on the board and free. */
  function PawnSingle(b: PiecePosition, me: nat, square: bv64): seq<MoveInfo>
    requires Shaped(b)
  {
    var to := OneAhead(me, square);
    if to != 0 && IsSquareEmpty(b, to) then PawnStep(square, to, square & PromotionRow(me) != 0, None) else []
  }

  /** The double push of the pawn on `square`: from the start rank, both squares ahead free. */
  function PawnDouble(b: PiecePosition, me: nat, square: bv64): seq<MoveInfo>
    requires Shaped(b)
  {
    if square & StartRow(me) != 0 && IsSquareEmpty(b, OneAhead(me, square)) && IsSquareEmpty(b, TwoAhead(me, square))
    then [MoveInfo(Normal(square, TwoAhead(me, square)), PAWN, None)] else []
  }

  /** The silent moves of the pawn on `square`: the single push, then the double push. */
  function PawnPushes(b: PiecePosition, me: nat, square: bv64): seq<MoveInfo>
    requires Shaped(b)
  {
    PawnSingle(b, me, square) + PawnDouble(b, me, square)
  }

  /** A diagonal capture onto `to` if an enemy piece stands there, recording that piece. */
  function PawnCapture(b: PiecePosition, me: nat, square: bv64, to: bv64, isPromotion: bool): seq<MoveInfo>
    requires Shaped(b) && me < 2
  {
    if to != 0 && IsSquareEnemy(b, me, to) then PawnStep(square, to, isPromotion, EnemyPieceInSquare(b, me, to, true))
    else []
  }

  /** The en-passant capture onto `ep` if it is set, empty, and one of the pawn's two diagonals. */
  function PawnEnPassant(b: PiecePosition, square: bv64, ep: bv64, to1: bv64, to2: bv64): seq<MoveInfo>
    requires Shaped(b)
  {
    if ep != NONE && IsSquareEmpty(b, ep) && (to1 == ep || to2 == ep)
    then [MoveInfo(EnPassant(square, ep), PAWN, Some(PAWN))] else []
  }

  /** The captures of the pawn on `square` (index `index`): towards the a-file, the h-file, then en passant. */
  function PawnCaptures(b: PiecePosition, me: nat, ep: bv64, square: bv64, index: nat): seq<MoveInfo>
    requires Shaped(b) && me < 2
  {
    var isPromotion := square & PromotionRow(me) != 0;
    var to1 := CaptureLeft(me, square, index);
    var to2 := CaptureRight(me, square, index);
    PawnCapture(b, me, square, to1, isPromotion) + PawnCapture(b, me, square, to2, isPromotion)
    + PawnEnPassant(b, square, ep, to1, to2)
  }

  /** The moves of one pawn a mode asks for: pushes unless only captures, captures unless only silent moves. */
  function PawnMovesFrom(b: PiecePosition, me: nat, ep: bv64, square: bv64, index: nat, kind: MoveGenKind): seq<MoveInfo>
    requires Shaped(b) && me < 2
  {
    (if kind == OnlyCaptures then [] else PawnPushes(b, me, square))
    + (if kind == OnlySilent then [] else PawnCaptures(b, me, ep, square, index))
  }

  /** The moves of the pawns on `pawns`, lowest square first. */
  function PawnsMoves(b: PiecePosition, me: nat, ep: bv64, pawns: bv64, kind: MoveGenKind): seq<MoveInfo>
    requires Shaped(b) && me < 2
    decreases PopCount(pawns)
  {
    if pawns == 0 then []
    else PawnMovesFrom(b, me, ep, Lowest(pawns), TrailingZeros(pawns), kind) + PawnsMoves(b, me, ep, pawns & (pawns - 1), kind)
  }

  /** What `get_pawn_moves` returns. */
  function PawnMoves(b: PiecePosition, me: nat, ep: bv64, kind: MoveGenKind): seq<MoveInfo>
    requires Shaped(b) && me < 2
  {
    PawnsMoves(b, me, ep, b.pieces[me][PAWN], kind)
  }

  /** One step of `PawnsMoves`: the lowest pawn's moves, then the rest. */
  lemma PawnsMovesStep(b: PiecePosition, me: nat, ep: bv64, pawns: bv64, kind: MoveGenKind, index: nat, square: bv64)
    requires Shaped(b) && me < 2 && pawns != 0
    requires index == TrailingZeros(pawns) && square == Lowest(pawns)
    ensures index < 64 && PopCount(pawns & (pawns - 1)) < PopCount(pawns)
    ensures PawnsMoves(b, me, ep, pawns, kind) ==
      PawnMovesFrom(b, me, ep, square, index, kind) + PawnsMoves(b, me, ep, pawns & (pawns - 1), kind)
  {
    hide TrailingZeros, Lowest, PawnMovesFrom;
  }

  lemma PawnsMovesNone(b: PiecePosition, me: nat, ep: bv64, kind: MoveGenKind)
    requires Shaped(b) && me < 2
    ensures PawnsMoves(b, me, ep, 0, kind) == []
  {}

  /** The push of one pawn move or of the four promotions onto `moves0`. */
  method PushPawnStep(from: bv64, to: bv64, isPromotion: bool, captured: Option<nat>, moves0: seq<MoveInfo>)
    returns (moves: seq<MoveInfo>)
    ensures moves == moves0 + PawnStep(from, to, isPromotion, captured)
  {
    if !isPromotion {
      moves := moves0 + [MoveInfo(Normal(from, to), PAWN, captured)];
    } else {
      moves := moves0 + [MoveInfo(Promotion(from, to, QUEEN), PAWN, captured)];
      moves := moves + [MoveInfo(Promotion(from, to, ROOK), PAWN, captured)];
      moves := moves + [MoveInfo(Promotion(from, to, KNIGHT), PAWN, captured)];
      moves := moves + [MoveInfo(Promotion(from, to, BISHOP), PAWN, captured)];
    }
  }

  /** The single push of `get_pawn_moves`, given the square ahead and whether it is free. */
  method PushPawnSingle(b: PiecePosition, me: nat, square: bv64, to: bv64, isFrontSquareEmpty: bool, isPromotion: bool, moves0: seq<MoveInfo>)
    returns (moves: seq<MoveInfo>)
    requires Shaped(b) && to == OneAhead(me, square) && isFrontSquareEmpty == IsSquareEmpty(b, to)
    requires isPromotion == (square & PromotionRow(me) != 0)
    ensures moves == moves0 + PawnSingle(b, me, square)
  {
    hide OneAhead, PromotionRow, PawnStep, IsSquareEmpty;
    moves := moves0;
    if to != 0 && isFrontSquareEmpty {
      moves := PushPawnStep(square, to, isPromotion, None, moves);
    }
  }

  /** The double push of `get_pawn_moves`, given whether the square ahead is free. */
  method PushPawnDouble(b: PiecePosition, me: nat, square: bv64, isFrontSquareEmpty: bool, moves0: seq<MoveInfo>)
    returns (moves: seq<MoveInfo>)
    requires Shaped(b) && isFrontSquareEmpty == IsSquareEmpty(b, OneAhead(me, square))
    ensures moves == moves0 + PawnDouble(b, me, square)
  {
    hide OneAhead, TwoAhead, StartRow, IsSquareEmpty;
    moves := moves0;
    var row := StartRow(me);
    if square & row > 0 {
      var to2 := TwoAhead(me, square);
      if isFrontSquareEmpty && IsSquareEmpty(b, to2) {
        moves := moves + [MoveInfo(Normal(square, to2), PAWN, None)];
      }
    }
  }

  /** The forward moves of `get_pawn_moves` for the pawn on `square`. */
  method PushPawnPushes(b: PiecePosition, me: nat, square: bv64, isPromotion: bool, moves0: seq<MoveInfo>)
    returns (moves: seq<MoveInfo>)
    requires Shaped(b) && isPromotion == (square & PromotionRow(me) != 0)
    ensures moves == moves0 + PawnPushes(b, me, square)
  {
    hide OneAhead, TwoAhead, StartRow, PromotionRow, PawnSingle, PawnDouble, IsSquareEmpty;
    var to := OneAhead(me, square);
    var isFrontSquareEmpty := IsSquareEmpty(b, to);
    moves := PushPawnSingle(b, me, square, to, isFrontSquareEmpty, isPromotion, moves0);
    moves := PushPawnDouble(b, me, square, isFrontSquareEmpty, moves);
    assert moves == moves0 + (PawnSingle(b, me, square) + PawnDouble(b, me, square));
  }

  /** One diagonal capture of `get_pawn_moves`. */
  method PushPawnCapture(b: PiecePosition, me: nat, square: bv64, to: bv64, isPromotion: bool, moves0: seq<MoveInfo>)
    returns (moves: seq<MoveInfo>)
    requires Shaped(b) && me < 2
    ensures moves == moves0 + PawnCapture(b, me, square, to, isPromotion)
  {
    moves := moves0;
    if to != 0 && IsSquareEnemy(b, me, to) {
      var enemyPiece := GetEnemyPieceInSquare(b, me, to, true);
      moves := PushPawnStep(square, to, isPromotion, enemyPiece, moves);
    }
  }

  /** `PawnCaptures` from its two diagonal squares. */
  lemma PawnCapturesUnfold(b: PiecePosition, me: nat, ep: bv64, square: bv64, index: nat, to1: bv64, to2: bv64, isPromotion: bool)
    requires Shaped(b) && me < 2 && isPromotion == (square & PromotionRow(me) != 0)
    requires to1 == CaptureLeft(me, square, index) && to2 == CaptureRight(me, square, index)
    ensures PawnCaptures(b, me, ep, square, index) ==
      PawnCapture(b, me, square, to1, isPromotion) + PawnCapture(b, me, square, to2, isPromotion) + PawnEnPassant(b, square, ep, to1, to2)
  {
    hide PawnCapture, PawnEnPassant, CaptureLeft, CaptureRight, PromotionRow;
  }

  /** The en-passant check of `get_pawn_moves`. */
  method PushPawnEnPassant(b: PiecePosition, square: bv64, ep: bv64, to1: bv64, to2: bv64, moves0: seq<MoveInfo>)
    returns (moves: seq<MoveInfo>)
    requires Shaped(b)
    ensures moves == moves0 + PawnEnPassant(b, square, ep, to1, to2)
  {
    moves := moves0;
    if ep != NONE {
      if IsSquareEmpty(b, ep) && (to1 == ep || to2 == ep) {
        moves := moves + [MoveInfo(EnPassant(square, ep), PAWN, Some(PAWN))];
      }
    }
  }

  /** The captures of `get_pawn_moves` for the pawn on `square`. */
  method PushPawnCaptures(b: PiecePosition, me: nat, ep: bv64, square: bv64, index: nat, isPromotion: bool, moves0: seq<MoveInfo>)
    returns (moves: seq<MoveInfo>)
    requires Shaped(b) && me < 2 && isPromotion == (square & PromotionRow(me) != 0)
    ensures moves == moves0 + PawnCaptures(b, me, ep, square, index)
  {
    hide PawnCapture, PawnCaptures, PawnEnPassant, PromotionRow, CaptureLeft, CaptureRight;
    var to1 := CaptureLeft(me, square, index);
    moves := PushPawnCapture(b, me, square, to1, isPromotion, moves0);
    var to2 := CaptureRight(me, square, index);
    moves := PushPawnCapture(b, me, square, to2, isPromotion, moves);
    moves := PushPawnEnPassant(b, square, ep, to1, to2, moves);
    PawnCapturesUnfold(b, me, ep, square, index, to1, to2, isPromotion);
  }

  /** `get_pawn_moves` (generator.rs:641-827). */
  method GetPawnMoves(p: PositionValue, kind: MoveGenKind) returns (moves: seq<MoveInfo>)
    requires WellFormed(p)
    ensures moves == PawnMoves(p.board, p.sideToMove, p.state.enPassant, kind)
  {
    hide Lowest, TrailingZeros, Bit, PawnPushes, PawnCaptures, PawnsMoves, PopCount, PromotionRow;
    var b, me, ep := p.board, p.sideToMove, p.state.enPassant;
    var pawns := b.pieces[me][PAWN];
    moves := [];
    while pawns > 0
      invariant moves + PawnsMoves(b, me, ep, pawns, kind) == PawnsMoves(b, me, ep, b.pieces[me][PAWN], kind)
      decreases PopCount(pawns)
    {
      var squareIndex := TrailingZeros(pawns);
      TrailingZerosBit(pawns);
      var square := Bit(squareIndex);
      PawnsMovesStep(b, me, ep, pawns, kind, squareIndex, square);
      ghost var rest := PawnsMoves(b, me, ep, pawns & (pawns - 1), kind);
      ghost var before := moves;
      var isPromotion := square & PromotionRow(me) > 0;
      if kind == OnlySilent || kind == All {
        moves := PushPawnPushes(b, me, square, isPromotion, moves);
      }
      if kind == OnlyCaptures || kind == All {
        moves := PushPawnCaptures(b, me, ep, square, squareIndex, isPromotion, moves);
      }
      assert moves == before + PawnMovesFrom(b, me, ep, square, squareIndex, kind);
      assert moves + rest == before + (PawnMovesFrom(b, me, ep, square, squareIndex, kind) + rest);
      pawns := pawns & (pawns - 1);
    }
    PawnsMovesNone(b, me, ep, kind);
  }

  // ---- All pseudo-legal moves ----

  /** What `get_pseudo_legal_moves` returns: pawn, knight, king, rook, bishop and queen moves, in that order. */
  function PseudoLegal(lk: Lookups, p: PositionValue, kind: MoveGenKind): seq<MoveInfo>
    requires WellFormed(p) && p.board.pieces[p.sideToMove][KING] != 0
  {
    var b, me := p.board, p.sideToMove;
    PawnMoves(b, me, p.state.enPassant, kind)
    + PieceMoves(lk, b, me, KNIGHT, kind)
    + KingMoves(lk, b, me, p.state.castling, kind)
    + PieceMoves(lk, b, me, ROOK, kind)
    + PieceMoves(lk, b, me, BISHOP, kind)
    + PieceMoves(lk, b, me, QUEEN, kind)
  }

  /** `get_pseudo_legal_moves` (generator.rs:171-188). */
  method GetPseudoLegalMoves(lk: Lookups, p: PositionValue, kind: MoveGenKind) returns (moves: seq<MoveInfo>)
    requires WellFormed(p) && p.board.pieces[p.sideToMove][KING] != 0
    ensures moves == PseudoLegal(lk, p, kind)
  {
    hide PawnMoves, PieceMoves, KingMoves;
    moves := [];
    var pawnMoves := GetPawnMoves(p, kind);
    moves := moves + pawnMoves;
    var knightMoves := GetKnightMoves(lk, p, kind);
    moves := moves + knightMoves;
    var kingMoves := GetKingMoves(lk, p, kind);
    moves := moves + kingMoves;
    var rookMoves := GetRookMoves(lk, p, kind);
    moves := moves + rookMoves;
    var bishopMoves := GetBishopMoves(lk, p, kind);
    moves := moves + bishopMoves;
    var queenMoves := GetQueenMoves(lk, p, kind);
    moves := moves + queenMoves;
  }

  // ---- Legality: make, test, unmake ----

  /** `apply_move` hands the move to the other side and leaves something for `undo_move` to pop, whatever the move. */
  lemma AppliedUndoable(p: PositionValue, mi: MoveInfo)
    requires Applicable(p, mi)
    ensures Undoable(Applied(p, mi), mi)
    ensures Applied(p, mi).sideToMove == Opposite(p.sideToMove) && Opposite(Applied(p, mi).sideToMove) == p.sideToMove
  {}

  /** A Normal or Promotion move whose target meets `square`; the `any` test of `is_position_check`. */
  predicate Hits(m: Move, square: bv64)
  {
    match m
    case Normal(_, to) => to & square != 0
    case Promotion(_, to, _) => to & square != 0
    case _ => false
  }

  /**
   * `is_position_check` on a position in which the side not to move has just moved: some
   * capture of the side to move lands on the other king. Both kings must be on the board
   * (the king generator indexes its table by the square, and `1 << 64` panics).
   */
  predicate PositionCheck(lk: Lookups, q: PositionValue)
    requires WellFormed(q) && q.board.pieces[q.sideToMove][KING] != 0 && q.board.pieces[Opposite(q.sideToMove)][KING] != 0
  {
    var kingSquare := Lowest(q.board.pieces[Opposite(q.sideToMove)][KING]);
    var moves := PseudoLegal(lk, q, OnlyCaptures);
    exists i | 0 <= i < |moves| :: Hits(moves[i].m, kingSquare)
  }

  /** The mover's king is still on the board after `mi`. */
  predicate KingKept(p: PositionValue, mi: MoveInfo)
    requires Applicable(p, mi)
  {
    Applied(p, mi).board.pieces[p.sideToMove][KING] != 0
  }

  /**
   * `is_check`: after `mi`, the opponent's king is gone (a move the engine counts as a
   * check) or some capture of the opponent takes the mover's king.
   */
  predicate InCheckAfter(lk: Lookups, p: PositionValue, mi: MoveInfo)
    requires Applicable(p, mi) && KingKept(p, mi)
  {
    var q := Applied(p, mi);
    q.board.pieces[q.sideToMove][KING] == 0 || PositionCheck(lk, q)
  }

  /** `is_position_check` (generator.rs:138-149). */
  method IsPositionCheck(lk: Lookups, pos: Position) returns (r: bool)
    requires pos.Valid()
    requires pos.board.pieces[pos.sideToMove][KING] != 0 && pos.board.pieces[Opposite(pos.sideToMove)][KING] != 0
    ensures r == PositionCheck(lk, pos.Value())
  {
    var king := pos.board.pieces[Opposite(pos.sideToMove)][KING];
    var squareIndex := TrailingZeros(king);
    TrailingZerosBit(king);
    var kingSquare := Bit(squareIndex);
    var moves := GetPseudoLegalMoves(lk, pos.Value(), OnlyCaptures);
    r := exists i | 0 <= i < |moves| :: Hits(moves[i].m, kingSquare);
  }

  /**
   * `is_check` (generator.rs:121-136): play `mi`, test, take it back. The position left
   * behind is `undo_move` after `apply_move`, which is the position itself when the move
   * fits the board.
   */
  method IsCheck(lk: Lookups, pos: Position, mi: MoveInfo) returns (r: bool)
    requires pos.Valid() && MoveInRange(pos.sideToMove, mi) && KingKept(pos.Value(), mi)
    modifies pos
    ensures r == InCheckAfter(lk, old(pos.Value()), mi)
    ensures pos.Value() == Undone(Applied(old(pos.Value()), mi), mi)
    ensures Fits(old(pos.board), old(pos.sideToMove), mi) ==> pos.Value() == old(pos.Value())
  {
    hide Applied, Undone, Fits, PositionCheck, PseudoLegal, Undoable;
    ghost var p := pos.Value();
    pos.ApplyMove(mi);
    AppliedUndoable(p, mi);
    var enemyKing := pos.board.pieces[pos.sideToMove][KING];
    if enemyKing == 0 {
      pos.UndoMove(mi);
      r := true;
    } else {
      r := IsPositionCheck(lk, pos);
      pos.UndoMove(mi);
    }
    if Fits(p.board, p.sideToMove, mi) {
      ApplyUndo(p, mi);
    }
  }

  /** The test move of `are_attacked_for_castling`: the king stepping from its square to `square`. */
  function Probe(kingSquare: bv64, square: bv64): MoveInfo
  {
    MoveInfo(Normal(kingSquare, square), KING, None)
  }

  /**
   * A probe `is_check` can make: its indices are in range, the king survives it, and it
   * fits the board, so that taking it back restores the position.
   */
  predicate ProbeOk(p: PositionValue, kingSquare: bv64, square: bv64)
  {
    && Applicable(p, Probe(kingSquare, square))
    && KingKept(p, Probe(kingSquare, square))
    && Fits(p.board, p.sideToMove, Probe(kingSquare, square))
  }

  lemma ProbeOkParts(p: PositionValue, kingSquare: bv64, square: bv64)
    requires ProbeOk(p, kingSquare, square)
    ensures WellFormed(p) && MoveInRange(p.sideToMove, Probe(kingSquare, square))
    ensures KingKept(p, Probe(kingSquare, square)) && Fits(p.board, p.sideToMove, Probe(kingSquare, square))
  {}

  /** `is_check` of the king step from `kingSquare` to `square`. */
  predicate ProbeChecks(lk: Lookups, p: PositionValue, kingSquare: bv64, square: bv64)
    requires ProbeOk(p, kingSquare, square)
  {
    InCheckAfter(lk, p, Probe(kingSquare, square))
  }

  /** `are_attacked_for_castling`: some king step from `kingSquare` to one of `squares` is a check. */
  predicate AttackedForCastling(lk: Lookups, p: PositionValue, kingSquare: bv64, squares: seq<bv64>)
    requires forall i | 0 <= i < |squares| :: ProbeOk(p, kingSquare, squares[i])
  {
    exists i | 0 <= i < |squares| :: ProbeChecks(lk, p, kingSquare, squares[i])
  }

  /** `are_attacked_for_castling` (generator.rs:151-169): the king steps tried in order, each taken back. */
  method AreAttackedForCastling(lk: Lookups, pos: Position, kingSquare: bv64, squares: seq<bv64>) returns (r: bool)
    requires pos.Valid() && forall i | 0 <= i < |squares| :: ProbeOk(pos.Value(), kingSquare, squares[i])
    modifies pos
    ensures r == AttackedForCastling(lk, old(pos.Value()), kingSquare, squares)
    ensures pos.Value() == old(pos.Value())
  {
    hide Applied, Undone, InCheckAfter, PositionCheck, ProbeOk, Probe, KingKept, Fits, MoveInRange, Applicable, WellFormed;
    ghost var p := pos.Value();
    for i := 0 to |squares|
      invariant pos.Value() == p
      invariant forall j | 0 <= j < i :: !ProbeChecks(lk, p, kingSquare, squares[j])
    {
      ProbeOkParts(p, kingSquare, squares[i]);
      var check := IsCheck(lk, pos, Probe(kingSquare, squares[i]));
      if check {
        return true;
      }
    }
    return false;
  }

  /** The squares `is_legal` tests for each of the four castles: the king's square and the two it crosses. */
  function CastleProbes(m: Move): Option<seq<bv64>>
  {
    if m == Castle(WHITE_KING_SIDE) then Some([E1, F1, G1])
    else if m == Castle(WHITE_QUEEN_SIDE) then Some([E1, D1, C1])
    else if m == Castle(BLACK_KING_SIDE) then Some([E8, F8, G8])
    else if m == Castle(BLACK_QUEEN_SIDE) then Some([E8, D8, C8])
    else None
  }

  /**
   * What `is_legal` needs to run without a panic: for a castle, a king on the board and
   * probes that fit; for any other move, a king that survives it.
   */
  predicate Testable(p: PositionValue, mi: MoveInfo)
  {
    && Applicable(p, mi)
    && var probes := CastleProbes(mi.m);
       if probes.Some? then
         var king := p.board.pieces[p.sideToMove][KING];
         king != 0 && forall i | 0 <= i < |probes.value| :: ProbeOk(p, Lowest(king), probes.value[i])
       else KingKept(p, mi)
  }

  /** `is_legal` gives the position back: a castle is only probed, any other move must fit the board. */
  predicate Restores(p: PositionValue, mi: MoveInfo)
    requires WellFormed(p)
  {
    CastleProbes(mi.m).Some? || Fits(p.board, p.sideToMove, mi)
  }

  /**
   * `is_legal`: a castle is legal when none of its king's three squares is attacked, any
   * other move when it does not leave the mover in check.
   */
  predicate Legal(lk: Lookups, p: PositionValue, mi: MoveInfo)
    requires Testable(p, mi)
  {
    var probes := CastleProbes(mi.m);
    if probes.Some? then !AttackedForCastling(lk, p, Lowest(p.board.pieces[p.sideToMove][KING]), probes.value)
    else !InCheckAfter(lk, p, mi)
  }

  /** A castle's test in `is_legal`: the king square, then `are_attacked_for_castling`. */
  method CastleAttacked(lk: Lookups, pos: Position, squares: seq<bv64>) returns (r: bool)
    requires pos.Valid() && pos.board.pieces[pos.sideToMove][KING] != 0
    requires forall i | 0 <= i < |squares| :: ProbeOk(pos.Value(), Lowest(pos.board.pieces[pos.sideToMove][KING]), squares[i])
    modifies pos
    ensures r == AttackedForCastling(lk, old(pos.Value()), Lowest(old(pos.board).pieces[old(pos.sideToMove)][KING]), squares)
    ensures pos.Value() == old(pos.Value())
  {
    var king := pos.board.pieces[pos.sideToMove][KING];
    var squareIndex := TrailingZeros(king);
    TrailingZerosBit(king);
    var kingSquare := Bit(squareIndex);
    r := AreAttackedForCastling(lk, pos, kingSquare, squares);
  }

  /** `is_legal` (generator.rs:69-118). */
  method IsLegal(lk: Lookups, pos: Position, mi: MoveInfo) returns (r: bool)
    requires pos.Valid() && Testable(pos.Value(), mi)
    modifies pos
    ensures r == Legal(lk, old(pos.Value()), mi)
    ensures Restores(old(pos.Value()), mi) ==> pos.Value() == old(pos.Value())
  {
    if mi.m == Castle(WHITE_KING_SIDE) {
      var attacked := CastleAttacked(lk, pos, [E1, F1, G1]);
      if attacked {
        return false;
      }
    } else if mi.m == Castle(WHITE_QUEEN_SIDE) {
      var attacked := CastleAttacked(lk, pos, [E1, D1, C1]);
      if attacked {
        return false;
      }
    } else if mi.m == Castle(BLACK_KING_SIDE) {
      var attacked := CastleAttacked(lk, pos, [E8, F8, G8]);
      if attacked {
        return false;
      }
    } else if mi.m == Castle(BLACK_QUEEN_SIDE) {
      var attacked := CastleAttacked(lk, pos, [E8, D8, C8]);
      if attacked {
        return false;
      }
    } else {
      var check := IsCheck(lk, pos, mi);
      if check {
        return false;
      }
    }
    return true;
  }

  /** `is_legal` can test the move and gives the position back afterwards. */
  predicate Playable(p: PositionValue, mi: MoveInfo)
  {
    Testable(p, mi) && Restores(p, mi)
  }

  /** Every move of `ms` is playable. */
  predicate AllPlayable(p: PositionValue, ms: seq<MoveInfo>)
  {
    forall i | 0 <= i < |ms| :: Playable(p, ms[i])
  }

  lemma PlayableParts(p: PositionValue, mi: MoveInfo)
    requires Playable(p, mi)
    ensures WellFormed(p) && Testable(p, mi) && Restores(p, mi)
  {}

  /** The elements of `s` that `keep` accepts, in their order (`into_iter().filter(..).collect()`). */
  function Filter<T>(s: seq<T>, keep: T -> bool): (r: seq<T>)
    ensures |r| <= |s|
  {
    if s == [] then [] else (if keep(s[0]) then [s[0]] else []) + Filter(s[1..], keep)
  }

  /** Filtering a concatenation filters each part. */
  lemma {:induction false} FilterConcat<T>(a: seq<T>, bs: seq<T>, keep: T -> bool)
    ensures Filter(a + bs, keep) == Filter(a, keep) + Filter(bs, keep)
  {
    if a != [] {
      assert (a + bs)[0] == a[0];
      assert (a + bs)[1..] == a[1..] + bs;
      FilterConcat(a[1..], bs, keep);
      var head := if keep(a[0]) then [a[0]] else [];
      assert Filter(a, keep) == head + Filter(a[1..], keep);
      assert Filter(a + bs, keep) == head + (Filter(a[1..], keep) + Filter(bs, keep));
    } else {
      assert a + bs == bs;
    }
  }

  /** An element is kept exactly when it is in `s` and `keep` accepts it. */
  lemma {:induction false} FilterMembers<T>(s: seq<T>, keep: T -> bool, x: T)
    ensures x in Filter(s, keep) <==> x in s && keep(x)
  {
    if s != [] {
      FilterMembers(s[1..], keep, x);
      assert s == [s[0]] + s[1..];
    }
  }

  /** A move `get_legal_moves` keeps: one `is_legal` can test, and accepts. */
  predicate Kept(lk: Lookups, p: PositionValue, mi: MoveInfo)
  {
    Playable(p, mi) && Legal(lk, p, mi)
  }

  /** The legal moves of `ms`, in their order. */
  function LegalOf(lk: Lookups, p: PositionValue, ms: seq<MoveInfo>): seq<MoveInfo>
  {
    Filter(ms, mi => Kept(lk, p, mi))
  }

  /** A playable move of the list is kept exactly when it is legal. */
  lemma LegalOfMembers(lk: Lookups, p: PositionValue, ms: seq<MoveInfo>, i: nat)
    requires i < |ms| && Playable(p, ms[i])
    ensures ms[i] in LegalOf(lk, p, ms) <==> Legal(lk, p, ms[i])
  {
    FilterMembers(ms, mi => Kept(lk, p, mi), ms[i]);
  }

  /** Only moves of the list are kept. */
  lemma LegalOfWithin(lk: Lookups, p: PositionValue, ms: seq<MoveInfo>, mi: MoveInfo)
    requires mi in LegalOf(lk, p, ms)
    ensures mi in ms
  {
    hide Playable, Legal;
    FilterMembers(ms, mi => Kept(lk, p, mi), mi);
  }

  /** The parts of a playable list are playable. */
  lemma PlayableSplit(p: PositionValue, a: seq<MoveInfo>, bs: seq<MoveInfo>)
    requires AllPlayable(p, a + bs)
    ensures AllPlayable(p, a) && AllPlayable(p, bs)
  {
    hide Playable;
    forall i | 0 <= i < |a| ensures Playable(p, a[i]) {
      assert a[i] == (a + bs)[i];
    }
    forall i | 0 <= i < |bs| ensures Playable(p, bs[i]) {
      assert bs[i] == (a + bs)[|a| + i];
    }
  }

  /** One step of `LegalOf`: the first move, kept when it is legal, then the rest. */
  lemma LegalOfStep(lk: Lookups, p: PositionValue, ms: seq<MoveInfo>, i: nat, isLegal: bool)
    requires i < |ms| && Playable(p, ms[i]) && isLegal == Legal(lk, p, ms[i])
    ensures isLegal ==> LegalOf(lk, p, ms[i..]) == [ms[i]] + LegalOf(lk, p, ms[i + 1..])
    ensures !isLegal ==> LegalOf(lk, p, ms[i..]) == LegalOf(lk, p, ms[i + 1..])
  {
    hide Playable, Legal;
    assert ms[i..][1..] == ms[i + 1..];
  }

  /** The `filter(|m| is_legal(pos, m))` of `get_legal_moves`, the position restored after each test. */
  method FilterLegal(lk: Lookups, pos: Position, ms: seq<MoveInfo>) returns (legal: seq<MoveInfo>)
    requires pos.Valid() && AllPlayable(pos.Value(), ms)
    modifies pos
    ensures legal == LegalOf(lk, old(pos.Value()), ms)
    ensures pos.Value() == old(pos.Value())
  {
    hide Playable, Legal, LegalOf, WellFormed;
    ghost var p := pos.Value();
    legal := [];
    for i := 0 to |ms|
      invariant pos.Value() == p
      invariant legal + LegalOf(lk, p, ms[i..]) == LegalOf(lk, p, ms)
    {
      PlayableParts(p, ms[i]);
      var isLegal := IsLegal(lk, pos, ms[i]);
      LegalOfStep(lk, p, ms, i, isLegal);
      ghost var rest := LegalOf(lk, p, ms[i + 1..]);
      if isLegal {
        ghost var before := legal;
        legal := legal + [ms[i]];
        assert legal + rest == before + ([ms[i]] + rest);
      }
    }
    assert ms[|ms|..] == [];
    LegalOfNone(lk, p);
  }

  lemma LegalOfNone(lk: Lookups, p: PositionValue)
    ensures LegalOf(lk, p, []) == []
  {}

  /** Filtering a concatenation filters each part. */
  lemma LegalOfConcat(lk: Lookups, p: PositionValue, a: seq<MoveInfo>, bs: seq<MoveInfo>)
    ensures LegalOf(lk, p, a + bs) == LegalOf(lk, p, a) + LegalOf(lk, p, bs)
  {
    hide Kept;
    FilterConcat(a, bs, mi => Kept(lk, p, mi));
  }

  lemma PseudoLegalParts(lk: Lookups, p: PositionValue, kind: MoveGenKind)
    requires WellFormed(p) && p.board.pieces[p.sideToMove][KING] != 0
    ensures PseudoLegal(lk, p, kind) ==
      PawnMoves(p.board, p.sideToMove, p.state.enPassant, kind)
      + PieceMoves(lk, p.board, p.sideToMove, KNIGHT, kind)
      + KingMoves(lk, p.board, p.sideToMove, p.state.castling, kind)
      + PieceMoves(lk, p.board, p.sideToMove, ROOK, kind)
      + PieceMoves(lk, p.board, p.sideToMove, BISHOP, kind)
      + PieceMoves(lk, p.board, p.sideToMove, QUEEN, kind)
  {
    hide PawnMoves, PieceMoves, KingMoves;
  }

  /** What `get_legal_moves` returns: the pseudo-legal moves that `is_legal` accepts, in their order. */
  function LegalMoves(lk: Lookups, p: PositionValue, kind: MoveGenKind): seq<MoveInfo>
    requires WellFormed(p) && p.board.pieces[p.sideToMove][KING] != 0
  {
    LegalOf(lk, p, PseudoLegal(lk, p, kind))
  }

  /**
   * `get_legal_moves` (generator.rs:190-236): each piece's moves generated and filtered in
   * turn, the position restored after every test.
   */
  method GetLegalMoves(lk: Lookups, pos: Position, kind: MoveGenKind) returns (moves: seq<MoveInfo>)
    requires pos.Valid() && pos.board.pieces[pos.sideToMove][KING] != 0
    requires AllPlayable(pos.Value(), PseudoLegal(lk, pos.Value(), kind))
    modifies pos
    ensures moves == LegalMoves(lk, old(pos.Value()), kind)
    ensures pos.Value() == old(pos.Value())
  {
    hide AllPlayable, Playable, LegalOf, PseudoLegal, PawnMoves, PieceMoves, KingMoves;
    ghost var p := pos.Value();
    ghost var g1 := PawnMoves(p.board, p.sideToMove, p.state.enPassant, kind);
    ghost var g2 := PieceMoves(lk, p.board, p.sideToMove, KNIGHT, kind);
    ghost var g3 := KingMoves(lk, p.board, p.sideToMove, p.state.castling, kind);
    ghost var g4 := PieceMoves(lk, p.board, p.sideToMove, ROOK, kind);
    ghost var g5 := PieceMoves(lk, p.board, p.sideToMove, BISHOP, kind);
    ghost var g6 := PieceMoves(lk, p.board, p.sideToMove, QUEEN, kind);
    PseudoLegalParts(lk, p, kind);
    PlayableSplit(p, g1 + g2 + g3 + g4 + g5, g6);
    PlayableSplit(p, g1 + g2 + g3 + g4, g5);
    PlayableSplit(p, g1 + g2 + g3, g4);
    PlayableSplit(p, g1 + g2, g3);
    PlayableSplit(p, g1, g2);

    var pawnMoves := GetPawnMoves(pos.Value(), kind);
    var legal := FilterLegal(lk, pos, pawnMoves);
    moves := legal;
    var knightMoves := GetKnightMoves(lk, pos.Value(), kind);
    legal := FilterLegal(lk, pos, knightMoves);
    moves := moves + legal;
    var kingMoves := GetKingMoves(lk, pos.Value(), kind);
    legal := FilterLegal(lk, pos, kingMoves);
    moves := moves + legal;
    var rookMoves := GetRookMoves(lk, pos.Value(), kind);
    legal := FilterLegal(lk, pos, rookMoves);
    moves := moves + legal;
    var bishopMoves := GetBishopMoves(lk, pos.Value(), kind);
    legal := FilterLegal(lk, pos, bishopMoves);
    moves := moves + legal;
    var queenMoves := GetQueenMoves(lk, pos.Value(), kind);
    legal := FilterLegal(lk, pos, queenMoves);
    moves := moves + legal;

    LegalOfConcat(lk, p, g1, g2);
    LegalOfConcat(lk, p, g1 + g2, g3);
    LegalOfConcat(lk, p, g1 + g2 + g3, g4);
    LegalOfConcat(lk, p, g1 + g2 + g3 + g4, g5);
    LegalOfConcat(lk, p, g1 + g2 + g3 + g4 + g5, g6);
  }
}
