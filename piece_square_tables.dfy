/**
 * The piece-square tables (evaluate/piece_square_tables.rs): 64 centipawn bonuses per
 * piece, indexed by square (a1 = 0 ... h8 = 63), for white and for black, and the
 * lookup `_get_square_table`. Each black table is its white one with the ranks
 * reversed, which is what makes the evaluation of a symmetric position 0.
 */
module PieceSquareTables {
  import opened Tables

  const WHITE: nat := 0
  const BLACK: nat := 1
  const PAWN: nat := 0
  const BISHOP: nat := 1
  const KNIGHT: nat := 2
  const ROOK: nat := 3
  const QUEEN: nat := 4
  const KING: nat := 5

  const BLACK_PAWN_SQUARE_TABLE: seq<int> := Ranks(
    [0,   0,   0,   0,   0,   0,   0,   0],
    [50,  50,  50,  50,  50,  50,  50,  50],
    [10,  10,  20,  30,  30,  20,  10,  10],
    [5,   5,  10,  25,  25,  10,   5,   5],
    [0,   0,   0,  20,  20,   0,   0,   0],
    [5,  -5, -10,   0,   0, -10,  -5,   5],
    [5,  10,  10, -20, -20,  10,  10,   5],
    [0,   0,   0,   0,   0,   0,   0,   0])

  const WHITE_PAWN_SQUARE_TABLE: seq<int> := Ranks(
    [0,   0,   0,   0,   0,   0,   0,   0],
    [5,  10,  10, -20, -20,  10,  10,   5],
    [5,  -5, -10,   0,   0, -10,  -5,   5],
    [0,   0,   0,  20,  20,   0,   0,   0],
    [5,   5,  10,  25,  25,  10,   5,   5],
    [10,  10,  20,  30,  30,  20,  10,  10],
    [50,  50,  50,  50,  50,  50,  50,  50],
    [0,   0,   0,   0,   0,   0,   0,   0])

  const BLACK_KNIGHT_SQUARE_TABLE: seq<int> := Ranks(
    [-50, -40, -30, -30, -30, -30, -40, -50],
    [-40, -20,   0,   0,   0,   0, -20, -40],
    [-30,   0,  10,  15,  15,  10,   0, -30],
    [-30,   5,  15,  20,  20,  15,   5, -30],
    [-30,   0,  15,  20,  20,  15,   0, -30],
    [-30,   5,  10,  15,  15,  10,   5, -30],
    [-40, -20,   0,   5,   5,   0, -20, -40],
    [-50, -40, -30, -30, -30, -30, -40, -50])

  const WHITE_KNIGHT_SQUARE_TABLE: seq<int> := Ranks(
    [-50, -40, -30, -30, -30, -30, -40, -50],
    [-40, -20,   0,   5,   5,   0, -20, -40],
    [-30,   5,  10,  15,  15,  10,   5, -30],
    [-30,   0,  15,  20,  20,  15,   0, -30],
    [-30,   5,  15,  20,  20,  15,   5, -30],
    [-30,   0,  10,  15,  15,  10,   0, -30],
    [-40, -20,   0,   0,   0,   0, -20, -40],
    [-50, -40, -30, -30, -30, -30, -40, -50])

  const BLACK_BISHOP_SQUARE_TABLE: seq<int> := Ranks(
    [-20, -10, -10, -10, -10, -10, -10, -20],
    [-10,   0,   0,   0,   0,   0,   0, -10],
    [-10,   0,   5,  10,  10,   5,   0, -10],
    [-10,   5,   5,  10,  10,   5,   5, -10],
    [-10,   0,  10,  10,  10,  10,   0, -10],
    [-10,  10,  10,  10,  10,  10,  10, -10],
    [-10,   5,   0,   0,   0,   0,   5, -10],
    [-20, -10, -10, -10, -10, -10, -10, -20])

  const WHITE_BISHOP_SQUARE_TABLE: seq<int> := Ranks(
    [-20, -10, -10, -10, -10, -10, -10, -20],
    [-10,   5,   0,   0,   0,   0,   5, -10],
    [-10,  10,  10,  10,  10,  10,  10, -10],
    [-10,   0,  10,  10,  10,  10,   0, -10],
    [-10,   5,   5,  10,  10,   5,   5, -10],
    [-10,   0,   5,  10,  10,   5,   0, -10],
    [-10,   0,   0,   0,   0,   0,   0, -10],
    [-20, -10, -10, -10, -10, -10, -10, -20])

  const BLACK_ROOK_SQUARE_TABLE: seq<int> := Ranks(
    [0,   0,   0,   0,   0,   0,   0,   0],
    [5,  10,  10,  10,  10,  10,  10,   5],
    [-5,   0,   0,   0,   0,   0,   0,  -5],
    [-5,   0,   0,   0,   0,   0,   0,  -5],
    [-5,   0,   0,   0,   0,   0,   0,  -5],
    [-5,   0,   0,   0,   0,   0,   0,  -5],
    [-5,   0,   0,   0,   0,   0,   0,  -5],
    [0,   0,   0,   5,   5,   0,   0,   0])

  const WHITE_ROOK_SQUARE_TABLE: seq<int> := Ranks(
    [0,   0,   0,   5,   5,   0,   0,   0],
    [-5,   0,   0,   0,   0,   0,   0,  -5],
    [-5,   0,   0,   0,   0,   0,   0,  -5],
    [-5,   0,   0,   0,   0,   0,   0,  -5],
    [-5,   0,   0,   0,   0,   0,   0,  -5],
    [-5,   0,   0,   0,   0,   0,   0,  -5],
    [5,  10,  10,  10,  10,  10,  10,   5],
    [0,   0,   0,   0,   0,   0,   0,   0])

  const BLACK_QUEEN_SQUARE_TABLE: seq<int> := Ranks(
    [-20, -10, -10,  -5,  -5, -10, -10, -20],
    [-10,   0,   0,   0,   0,   0,   0, -10],
    [-10,   0,   5,   5,   5,   5,   0, -10],
    [-5,   0,   5,   5,   5,   5,   0,  -5],
    [0,   0,   5,   5,   5,   5,   0,  -5],
    [-10,   5,   5,   5,   5,   5,   0, -10],
    [-10,   0,   5,   0,   0,   0,   0, -10],
    [-20, -10, -10,  -5,  -5, -10, -10, -20])

  const WHITE_QUEEN_SQUARE_TABLE: seq<int> := Ranks(
    [-20, -10, -10,  -5,  -5, -10, -10, -20],
    [-10,   0,   5,   0,   0,   0,   0, -10],
    [-10,   5,   5,   5,   5,   5,   0, -10],
    [0,   0,   5,   5,   5,   5,   0,  -5],
    [-5,   0,   5,   5,   5,   5,   0,  -5],
    [-10,   0,   5,   5,   5,   5,   0, -10],
    [-10,   0,   0,   0,   0,   0,   0, -10],
    [-20, -10, -10,  -5,  -5, -10, -10, -20])

  const BLACK_KING_BEGIN_SQUARE_TABLE: seq<int> := Ranks(
    [-30, -40, -40, -50, -50, -40, -40, -30],
    [-30, -40, -40, -50, -50, -40, -40, -30],
    [-30, -40, -40, -50, -50, -40, -40, -30],
    [-30, -40, -40, -50, -50, -40, -40, -30],
    [-20, -30, -30, -40, -40, -30, -30, -20],
    [-10, -20, -20, -20, -20, -20, -20, -10],
    [20,  20,   0,   0,   0,   0,  20,  20],
    [20,  30,  10,   0,   0,  10,  30,  20])

  const WHITE_KING_BEGIN_SQUARE_TABLE: seq<int> := Ranks(
    [20,  30,  10,   0,   0,  10,  30,  20],
    [20,  20,   0,   0,   0,   0,  20,  20],
    [-10, -20, -20, -20, -20, -20, -20, -10],
    [-20, -30, -30, -40, -40, -30, -30, -20],
    [-30, -40, -40, -50, -50, -40, -40, -30],
    [-30, -40, -40, -50, -50, -40, -40, -30],
    [-30, -40, -40, -50, -50, -40, -40, -30],
    [-30, -40, -40, -50, -50, -40, -40, -30])

  const BLACK_KING_END_SQUARE_TABLE: seq<int> := Ranks(
    [-50, -40, -30, -20, -20, -30, -40, -50],
    [-30, -20, -10,   0,   0, -10, -20, -30],
    [-30, -10,  20,  30,  30,  20, -10, -30],
    [-30, -10,  30,  40,  40,  30, -10, -30],
    [-30, -10,  30,  40,  40,  30, -10, -30],
    [-30, -10,  20,  30,  30,  20, -10, -30],
    [-30, -30,   0,   0,   0,   0, -30, -30],
    [-50, -30, -30, -30, -30, -30, -30, -50])

  const WHITE_KING_END_SQUARE_TABLE: seq<int> := Ranks(
    [-50, -30, -30, -30, -30, -30, -30, -50],
    [-30, -30,   0,   0,   0,   0, -30, -30],
    [-30, -10,  20,  30,  30,  20, -10, -30],
    [-30, -10,  30,  40,  40,  30, -10, -30],
    [-30, -10,  30,  40,  40,  30, -10, -30],
    [-30, -10,  20,  30,  30,  20, -10, -30],
    [-30, -20, -10,   0,   0, -10, -20, -30],
    [-50, -40, -30, -20, -20, -30, -40, -50])

  /** Square index of the same file on the mirrored rank (`i ^ 56` on a 6-bit index). */
  function Mirror(i: nat): (j: nat)
    requires i < 64
    ensures j < 64
    ensures j % 8 == i % 8 && j / 8 == 7 - i / 8
  {
    (7 - i / 8) * 8 + i % 8
  }

  /** Table `b` is table `w` seen from the other side of the board. */
  ghost predicate Mirrored(b: seq<int>, w: seq<int>)
  {
    |b| == 64 && |w| == 64 && forall i :: 0 <= i < 64 ==> b[i] == w[Mirror(i)]
  }

  /**
   * The table of `piece` for `side`; `isLateGame` picks the king's end-game table.
   * An unknown piece gets its side's pawn table, an unknown side the black pawn table.
   */
  function SquareTable(side: nat, piece: nat, isLateGame: bool): (r: seq<int>)
    ensures |r| == 64
  {
    if side == WHITE then
      if piece == PAWN then WHITE_PAWN_SQUARE_TABLE
      else if piece == ROOK then WHITE_ROOK_SQUARE_TABLE
      else if piece == KNIGHT then WHITE_KNIGHT_SQUARE_TABLE
      else if piece == BISHOP then WHITE_BISHOP_SQUARE_TABLE
      else if piece == QUEEN then WHITE_QUEEN_SQUARE_TABLE
      else if piece == KING then
        if isLateGame then WHITE_KING_END_SQUARE_TABLE else WHITE_KING_BEGIN_SQUARE_TABLE
      else WHITE_PAWN_SQUARE_TABLE
    else if side == BLACK then
      if piece == PAWN then BLACK_PAWN_SQUARE_TABLE
      else if piece == ROOK then BLACK_ROOK_SQUARE_TABLE
      else if piece == KNIGHT then BLACK_KNIGHT_SQUARE_TABLE
      else if piece == BISHOP then BLACK_BISHOP_SQUARE_TABLE
      else if piece == QUEEN then BLACK_QUEEN_SQUARE_TABLE
      else if piece == KING then
        if isLateGame then BLACK_KING_END_SQUARE_TABLE else BLACK_KING_BEGIN_SQUARE_TABLE
      else BLACK_PAWN_SQUARE_TABLE
    else BLACK_PAWN_SQUARE_TABLE
  }

  /** Two tables whose ranks come in opposite order are mirrored. */
  lemma RanksMirrored(b: seq<int>, w: seq<int>)
    requires |b| == 64 && |w| == 64
    requires b[0..8] == w[56..64] && b[8..16] == w[48..56] && b[16..24] == w[40..48] && b[24..32] == w[32..40]
    requires b[32..40] == w[24..32] && b[40..48] == w[16..24] && b[48..56] == w[8..16] && b[56..64] == w[0..8]
    ensures Mirrored(b, w)
  {
    forall i | 0 <= i < 64 ensures b[i] == w[Mirror(i)] {
      var r := i / 8;
      assert Rank(b, r) == Rank(w, 7 - r);
      assert b[i] == Rank(b, r)[i % 8];
    }
  }

  lemma PawnTablesMirrored()
    ensures Mirrored(BLACK_PAWN_SQUARE_TABLE, WHITE_PAWN_SQUARE_TABLE)
  {
    RanksMirrored(BLACK_PAWN_SQUARE_TABLE, WHITE_PAWN_SQUARE_TABLE);
  }

  lemma KnightTablesMirrored()
    ensures Mirrored(BLACK_KNIGHT_SQUARE_TABLE, WHITE_KNIGHT_SQUARE_TABLE)
  {
    RanksMirrored(BLACK_KNIGHT_SQUARE_TABLE, WHITE_KNIGHT_SQUARE_TABLE);
  }

  lemma BishopTablesMirrored()
    ensures Mirrored(BLACK_BISHOP_SQUARE_TABLE, WHITE_BISHOP_SQUARE_TABLE)
  {
    RanksMirrored(BLACK_BISHOP_SQUARE_TABLE, WHITE_BISHOP_SQUARE_TABLE);
  }

  lemma RookTablesMirrored()
    ensures Mirrored(BLACK_ROOK_SQUARE_TABLE, WHITE_ROOK_SQUARE_TABLE)
  {
    RanksMirrored(BLACK_ROOK_SQUARE_TABLE, WHITE_ROOK_SQUARE_TABLE);
  }

  lemma QueenTablesMirrored()
    ensures Mirrored(BLACK_QUEEN_SQUARE_TABLE, WHITE_QUEEN_SQUARE_TABLE)
  {
    RanksMirrored(BLACK_QUEEN_SQUARE_TABLE, WHITE_QUEEN_SQUARE_TABLE);
  }

  lemma KingBeginTablesMirrored()
    ensures Mirrored(BLACK_KING_BEGIN_SQUARE_TABLE, WHITE_KING_BEGIN_SQUARE_TABLE)
  {
    RanksMirrored(BLACK_KING_BEGIN_SQUARE_TABLE, WHITE_KING_BEGIN_SQUARE_TABLE);
  }

  lemma KingEndTablesMirrored()
    ensures Mirrored(BLACK_KING_END_SQUARE_TABLE, WHITE_KING_END_SQUARE_TABLE)
  {
    RanksMirrored(BLACK_KING_END_SQUARE_TABLE, WHITE_KING_END_SQUARE_TABLE);
  }

  /** For every piece, the black table `_get_square_table` returns is the mirror of the white one. */
  lemma SquareTableMirrored(piece: nat, isLateGame: bool)
    ensures Mirrored(SquareTable(BLACK, piece, isLateGame), SquareTable(WHITE, piece, isLateGame))
  {
    if piece == ROOK {
      RookTablesMirrored();
    } else if piece == KNIGHT {
      KnightTablesMirrored();
    } else if piece == BISHOP {
      BishopTablesMirrored();
    } else if piece == QUEEN {
      QueenTablesMirrored();
    } else if piece == KING && isLateGame {
      KingEndTablesMirrored();
    } else if piece == KING {
      KingBeginTablesMirrored();
    } else {
      PawnTablesMirrored();
    }
  }

  /** Only the king has a separate end-game table. */
  lemma LateGameOnlyKing(side: nat, piece: nat)
    requires piece != KING
    ensures SquareTable(side, piece, true) == SquareTable(side, piece, false)
  {
  }

  /** An unknown piece is valued as a pawn of its side; an unknown side as a black pawn. */
  lemma SquareTableFallbacks(side: nat, piece: nat, isLateGame: bool)
    ensures piece > KING ==> SquareTable(side, piece, isLateGame) == SquareTable(side, PAWN, isLateGame)
    ensures side > BLACK ==> SquareTable(side, piece, isLateGame) == SquareTable(BLACK, PAWN, isLateGame)
  {
  }

  /** Table `t` is zero on the first and on the last rank. */
  ghost predicate ZeroOnEdgeRanks(t: seq<int>)
    requires |t| == 64
  {
    (forall c :: 0 <= c < 8 ==> t[c] == 0) && (forall c :: 56 <= c < 64 ==> t[c] == 0)
  }

  lemma EdgeRanksZero(t: seq<int>)
    requires |t| == 64
    requires t[0..8] == [0, 0, 0, 0, 0, 0, 0, 0] && t[56..64] == [0, 0, 0, 0, 0, 0, 0, 0]
    ensures ZeroOnEdgeRanks(t)
  {
    forall c | 0 <= c < 8 ensures t[c] == 0 {
      assert t[c] == t[0..8][c];
    }
    forall c | 56 <= c < 64 ensures t[c] == 0 {
      assert t[c] == t[56..64][c - 56];
    }
  }

  /** A pawn never stands on rank 1 or rank 8, and both pawn tables are zero there. */
  lemma PawnTablesZeroOnEdgeRanks()
    ensures ZeroOnEdgeRanks(WHITE_PAWN_SQUARE_TABLE) && ZeroOnEdgeRanks(BLACK_PAWN_SQUARE_TABLE)
  {
    EdgeRanksZero(WHITE_PAWN_SQUARE_TABLE);
    EdgeRanksZero(BLACK_PAWN_SQUARE_TABLE);
  }
}
