/**
 * The static evaluation of evaluate/evaluator.rs: material (with the bishop pair),
 * mobility and the piece-square tables, added up from white's side of the board and
 * signed for the side to move, cached by Zobrist hash, and the score of a position in
 * which the side to move has no move (mate or stalemate).
 *
 * The square tables are summed over the squares of a bitboard; `SquareSum` is that sum
 * over the 64 squares, the loop of `get_piece_square_table_value` peels the squares off
 * one at a time, and the two agree. A board whose black pieces mirror white's ones
 * across the middle of the board scores 0 in material and in the tables.
 */
module Evaluation {
  import opened Bits
  import opened Wrappers
  import opened Models
  import opened Values
  import opened Game
  import opened Generator
  import opened Engines
  import opened Sums
  import Magic
  import PieceSquareTables

  // ---- Sums over the squares of a bitboard ----

  /** The sum of a sequence of integers. */
  function Total(s: seq<int>): int
  {
    if s == [] then 0 else s[0] + Total(s[1..])
  }

  lemma {:induction false} TotalConcat(a: seq<int>, b: seq<int>)
    ensures Total(a + b) == Total(a) + Total(b)
  {
    if a == [] {
      assert a + b == b;
    } else {
      assert (a + b)[1..] == a[1..] + b;
      TotalConcat(a[1..], b);
    }
  }

  /** Changing one entry changes the sum by the difference. */
  lemma {:induction false} TotalUpdate(s: seq<int>, k: nat, v: int)
    requires k < |s|
    ensures Total(s[k := v]) == Total(s) - s[k] + v
  {
    if k == 0 {
      assert s[k := v][1..] == s[1..];
    } else {
      assert s[k := v][1..] == s[1..][k - 1 := v];
      TotalUpdate(s[1..], k - 1, v);
    }
  }

  lemma {:induction false} TotalZero(s: seq<int>)
    requires forall i :: 0 <= i < |s| ==> s[i] == 0
    ensures Total(s) == 0
  {
    if s != [] {
      TotalZero(s[1..]);
    }
  }

  /** The entry of `t` on each square of `x`, and 0 on the squares not in `x`. */
  function Terms(x: bv64, t: seq<int>): (r: seq<int>)
    requires |t| == 64
    ensures |r| == 64
    ensures forall i :: 0 <= i < 64 ==> r[i] == if Has(x, i) then t[i] else 0
  {
    seq(64, i requires 0 <= i < 64 => if Has(x, i) then t[i] else 0)
  }

  /** The entries of table `t` on the squares of `x`, added up. */
  function SquareSum(x: bv64, t: seq<int>): int
    requires |t| == 64
  {
    Total(Terms(x, t))
  }

  /** A table of ones: summed over a bitboard it counts the squares. */
  function Ones(): (r: seq<int>)
    ensures |r| == 64 && forall i :: 0 <= i < 64 ==> r[i] == 1
  {
    seq(64, _ => 1)
  }

  /** The sum over the empty board is 0. */
  lemma SquareSumEmpty(t: seq<int>)
    requires |t| == 64
    ensures SquareSum(0, t) == 0
  {
    TotalZero(Terms(0, t));
  }

  /** The lowest square is gone once it is cleared. */
  lemma ClearedTheLowest(x: bv64, i: nat)
    requires x != 0 && i < 64 && i == TrailingZeros(x)
    ensures !Has(Cleared(x), i)
  {
    TrailingZerosBit(x);
    ClearedIs(x);
    var low := Lowest(x);
    hide Lowest, TrailingZeros, Bit, Cleared, Has;
    HasIs(Cleared(x), i);
    ClearedLowest(Cleared(x), x, low);
  }

  lemma ClearedIs(x: bv64)
    ensures Cleared(x) == x & !Lowest(x)
  {
    ClearLowest(x);
  }

  /** Two bitboards that agree on a square's bit agree on the square. */
  lemma SameHas(c: bv64, x: bv64, i: nat)
    requires i < 64 && c & Bit(i) == x & Bit(i)
    ensures Has(c, i) == Has(x, i)
  {
  }

  /** Membership as the bit-level test, for proofs that keep `Has` hidden. */
  lemma HasIs(y: bv64, i: nat)
    requires i < 64
    ensures Has(y, i) <==> y & Bit(i) != 0
  {
  }

  /** The bit-level steps of `ClearedHas`, with the square and the lowest bit as plain values. */
  lemma ClearedLowest(c: bv64, x: bv64, l: bv64)
    requires c == x & !l
    ensures c & l == 0
  {
  }

  lemma ClearedOther(c: bv64, x: bv64, l: bv64, b: bv64)
    requires c == x & !l && l & b == 0
    ensures c & b == x & b
  {
  }

  /** The bitboard with its lowest square cleared, as `b &= b - 1` leaves it. */
  function Cleared(x: bv64): bv64
  {
    x & (x - 1)
  }

  /** Clearing a mask `l` that misses square `i` keeps square `i`. */
  lemma KeptSquare(c: bv64, x: bv64, l: bv64, i: nat)
    requires i < 64 && c == x & !l && l & Bit(i) == 0
    ensures Has(c, i) == Has(x, i)
  {
    hide Bit, Has;
    ClearedOther(c, x, l, Bit(i));
    SameHas(c, x, i);
  }

  /** The lowest set bit is the bit of the trailing-zero count. */
  lemma LowestBit(x: bv64)
    requires x != 0
    ensures TrailingZeros(x) < 64 && Bit(TrailingZeros(x)) == Lowest(x)
  {
    TrailingZerosBit(x);
  }

  /**
   * Peeling the lowest square off takes its entry out of the sum: clearing the lowest
   * square of a bitboard removes that square and keeps every other.
   */
  lemma SquareSumClear(x: bv64, t: seq<int>)
    requires x != 0 && |t| == 64
    ensures TrailingZeros(x) < 64
    ensures SquareSum(x, t) == t[TrailingZeros(x)] + SquareSum(Cleared(x), t)
  {
    var tz := TrailingZeros(x);
    LowestBit(x);
    ClearedIs(x);
    var low := Lowest(x);
    var a, c := Terms(x, t), Terms(Cleared(x), t);
    hide Lowest, TrailingZeros, Bit, Cleared, Has;
    forall i | 0 <= i < 64
      ensures c[i] == a[tz := 0][i]
    {
      if i == tz {
        ClearedTheLowest(x, i);
      } else {
        BitsDisjoint(tz, i);
        KeptSquare(Cleared(x), x, low, i);
      }
    }
    assert c == a[tz := 0];
    TotalUpdate(a, tz, 0);
  }

  /** `count_ones` counts the squares of the bitboard. */
  lemma {:induction false} PopCountSquares(x: bv64)
    ensures PopCount(x) == SquareSum(x, Ones())
    decreases x
  {
    if x == 0 {
      SquareSumEmpty(Ones());
    } else {
      SquareSumClear(x, Ones());
      Magic.PopCountClear(x);
      PopCountSquares(x & (x - 1));
    }
  }

  // ---- Mirrored boards ----

  /** Bitboard `y` holds the squares of `x` with the ranks reversed. */
  ghost predicate MirroredSquares(y: bv64, x: bv64)
  {
    forall i :: 0 <= i < 64 ==> (Has(y, i) <==> Has(x, PieceSquareTables.Mirror(i)))
  }

  /** The sum from square `k` on splits after eight squares. */
  lemma TotalSplit(u: seq<int>, k: nat)
    requires k + 8 <= |u|
    ensures Total(u[k..]) == Total(u[k..k + 8]) + Total(u[k + 8..])
  {
    assert u[k..] == u[k..k + 8] + u[k + 8..];
    TotalConcat(u[k..k + 8], u[k + 8..]);
  }

  /** The sum of rank `r` of a 64-entry sequence. */
  function RankTotal(u: seq<int>, r: nat): int
    requires |u| == 64 && r < 8
  {
    Total(u[8 * r..8 * r + 8])
  }

  /** The sum of 64 entries is the sum of its eight ranks. */
  lemma RankTotals(u: seq<int>)
    requires |u| == 64
    ensures Total(u) == RankTotal(u, 0) + RankTotal(u, 1) + RankTotal(u, 2) + RankTotal(u, 3)
                      + RankTotal(u, 4) + RankTotal(u, 5) + RankTotal(u, 6) + RankTotal(u, 7)
  {
    hide Total;
    assert u[0..] == u;
    TotalSplit(u, 0);
    TotalSplit(u, 8);
    TotalSplit(u, 16);
    TotalSplit(u, 24);
    TotalSplit(u, 32);
    TotalSplit(u, 40);
    TotalSplit(u, 48);
    TotalSplit(u, 56);
    TotalZero(u[64..]);
  }

  /** Rank `r` of a mirrored sequence is rank 7 - r of the original, and sums to the same. */
  lemma RankMirrored(m: seq<int>, s: seq<int>, r: nat)
    requires |m| == 64 && |s| == 64 && r < 8
    requires forall i :: 0 <= i < 64 ==> m[i] == s[PieceSquareTables.Mirror(i)]
    ensures RankTotal(m, r) == RankTotal(s, 7 - r)
  {
    var mr, sr := m[8 * r..8 * r + 8], s[8 * (7 - r)..8 * (7 - r) + 8];
    forall c | 0 <= c < 8
      ensures mr[c] == sr[c]
    {
      var i := 8 * r + c;
      assert i / 8 == r && i % 8 == c;
      var j := PieceSquareTables.Mirror(i);
      assert j == 8 * (j / 8) + j % 8;
    }
    assert mr == sr;
  }

  /** Reversing the ranks does not change the sum. */
  lemma TotalMirrored(m: seq<int>, s: seq<int>)
    requires |m| == 64 && |s| == 64
    requires forall i :: 0 <= i < 64 ==> m[i] == s[PieceSquareTables.Mirror(i)]
    ensures Total(m) == Total(s)
  {
    hide Total, RankTotal, PieceSquareTables.Mirror;
    RankTotals(m);
    RankTotals(s);
    RankMirrored(m, s, 0);
    RankMirrored(m, s, 1);
    RankMirrored(m, s, 2);
    RankMirrored(m, s, 3);
    RankMirrored(m, s, 4);
    RankMirrored(m, s, 5);
    RankMirrored(m, s, 6);
    RankMirrored(m, s, 7);
  }

  /** A mirrored bitboard summed over a mirrored table gives the sum of the original. */
  lemma SquareSumMirrored(y: bv64, x: bv64, ty: seq<int>, tx: seq<int>)
    requires MirroredSquares(y, x) && PieceSquareTables.Mirrored(ty, tx)
    ensures SquareSum(y, ty) == SquareSum(x, tx)
  {
    var m, s := Terms(y, ty), Terms(x, tx);
    forall i | 0 <= i < 64
      ensures m[i] == s[PieceSquareTables.Mirror(i)]
    {
      assert Has(y, i) <==> Has(x, PieceSquareTables.Mirror(i));
    }
    TotalMirrored(m, s);
  }

  /** A bitboard and its mirror image hold the same number of squares. */
  lemma PopCountMirrored(y: bv64, x: bv64)
    requires MirroredSquares(y, x)
    ensures PopCount(y) == PopCount(x)
  {
    hide Ones, PopCount, SquareSum;
    PopCountSquares(y);
    PopCountSquares(x);
    SquareSumMirrored(y, x, Ones(), Ones());
  }

  /** Black's pieces of every kind stand where white's ones would, seen from the other side. */
  ghost predicate MirroredBoard(b: PiecePosition)
    requires Shaped(b)
  {
    forall piece :: 0 <= piece < 6 ==> MirroredSquares(b.pieces[BLACK][piece], b.pieces[WHITE][piece])
  }

  // ---- Material ----

  /**
   * `get_pieces_value`: the number of pieces of the kind times `pieceValue`, plus the
   * bishop-pair bonus for exactly two bishops, counted up for white and down for black.
   */
  function PiecesValue(b: PiecePosition, side: nat, piece: nat, pieceValue: int): int
    requires Shaped(b) && side < 2 && piece < 6
  {
    var n := PopCount(b.pieces[side][piece]);
    Signed(side, n * pieceValue + if piece == BISHOP && n == 2 then BISHOP_PAIR_VALUE else 0)
  }

  /** The value counts the squares the pieces stand on; only a pair of bishops earns a bonus. */
  lemma PiecesValueCounts(b: PiecePosition, side: nat, piece: nat, pieceValue: int)
    requires Shaped(b) && side < 2 && piece < 6
    ensures var n := SquareSum(b.pieces[side][piece], Ones());
      && (piece == BISHOP && n == 2 ==> PiecesValue(b, side, piece, pieceValue) == Signed(side, 2 * pieceValue + BISHOP_PAIR_VALUE))
      && (piece != BISHOP || n != 2 ==> PiecesValue(b, side, piece, pieceValue) == Signed(side, n * pieceValue))
      && (n == 0 ==> PiecesValue(b, side, piece, pieceValue) == 0)
  {
    PopCountSquares(b.pieces[side][piece]);
  }

  /** On a mirrored board each kind of piece is worth as much to black as to white. */
  lemma PiecesValueMirrored(b: PiecePosition, piece: nat, pieceValue: int)
    requires Shaped(b) && piece < 6 && MirroredBoard(b)
    ensures PiecesValue(b, BLACK, piece, pieceValue) == -PiecesValue(b, WHITE, piece, pieceValue)
  {
    PopCountMirrored(b.pieces[BLACK][piece], b.pieces[WHITE][piece]);
  }

  /** The material part of `static_evaluation`, from white's side, in the engine's order. */
  function Material(b: PiecePosition): int
    requires Shaped(b)
  {
    PiecesValue(b, WHITE, PAWN, PAWN_VALUE) + PiecesValue(b, WHITE, ROOK, ROOK_VALUE)
    + PiecesValue(b, WHITE, KNIGHT, KNIGHT_VALUE) + PiecesValue(b, WHITE, BISHOP, BISHOP_VALUE)
    + PiecesValue(b, WHITE, QUEEN, QUEEN_VALUE) + PiecesValue(b, WHITE, KING, KING_VALUE)
    + PiecesValue(b, BLACK, PAWN, PAWN_VALUE) + PiecesValue(b, BLACK, ROOK, ROOK_VALUE)
    + PiecesValue(b, BLACK, KNIGHT, KNIGHT_VALUE) + PiecesValue(b, BLACK, BISHOP, BISHOP_VALUE)
    + PiecesValue(b, BLACK, QUEEN, QUEEN_VALUE) + PiecesValue(b, BLACK, KING, KING_VALUE)
  }

  /** A mirrored board is balanced in material. */
  lemma MaterialMirrored(b: PiecePosition)
    requires Shaped(b) && MirroredBoard(b)
    ensures Material(b) == 0
  {
    PiecesValueMirrored(b, PAWN, PAWN_VALUE);
    PiecesValueMirrored(b, ROOK, ROOK_VALUE);
    PiecesValueMirrored(b, KNIGHT, KNIGHT_VALUE);
    PiecesValueMirrored(b, BISHOP, BISHOP_VALUE);
    PiecesValueMirrored(b, QUEEN, QUEEN_VALUE);
    PiecesValueMirrored(b, KING, KING_VALUE);
  }

  // ---- Piece-square tables ----

  /**
   * `get_piece_square_table_value`: walks the squares of the pieces from the lowest up
   * and adds the table entry of each for white, subtracts it for black. The result is
   * the table summed over the squares, signed by the side.
   */
  method PieceSquareTableValue(b: PiecePosition, side: nat, piece: nat, table: seq<int>) returns (result: int)
    requires Shaped(b) && side < 2 && piece < 6 && |table| == 64
    ensures result == Signed(side, SquareSum(b.pieces[side][piece], table))
  {
    result := 0;
    var pieces := b.pieces[side][piece];
    ghost var all := pieces;
    while pieces != 0
      invariant result + Signed(side, SquareSum(pieces, table)) == Signed(side, SquareSum(all, table))
      decreases PopCount(pieces)
    {
      var squareIndex := TrailingZeros(pieces);
      SquareSumClear(pieces, table);
      Magic.PopCountClear(pieces);
      if side == WHITE {
        result := result + table[squareIndex];
      } else if side == BLACK {
        result := result - table[squareIndex];
      }
      pieces := pieces & (pieces - 1);
    }
    SquareSumEmpty(table);
  }

  /** `is_end_game`: neither side has a queen and at least 40 half-moves have been played. */
  function IsEndGame(p: PositionValue): (r: bool)
    requires Shaped(p.board)
    ensures r <==> PopCount(p.board.pieces[WHITE][QUEEN]) == 0 && PopCount(p.board.pieces[BLACK][QUEEN]) == 0 && p.halfMoveNumber >= 40
  {
    Magic.PopCountZero(p.board.pieces[WHITE][QUEEN]);
    Magic.PopCountZero(p.board.pieces[BLACK][QUEEN]);
    p.board.pieces[WHITE][QUEEN] == 0 && p.board.pieces[BLACK][QUEEN] == 0 && p.halfMoveNumber >= 40
  }

  /** In the end game the queens add no material. */
  lemma EndGameNoQueens(p: PositionValue)
    requires Shaped(p.board) && IsEndGame(p)
    ensures PiecesValue(p.board, WHITE, QUEEN, QUEEN_VALUE) == 0 && PiecesValue(p.board, BLACK, QUEEN, QUEEN_VALUE) == 0
  {
  }

  /** One piece's table term: its side's table summed over its squares, signed by the side. */
  function TableValue(b: PiecePosition, side: nat, piece: nat, isEndGame: bool): int
    requires Shaped(b) && side < 2 && piece < 6
  {
    Signed(side, SquareSum(b.pieces[side][piece], PieceSquareTables.SquareTable(side, piece, isEndGame)))
  }

  /** The square-table part of `static_evaluation`, from white's side, in the engine's order. */
  function SquareTableScore(b: PiecePosition, isEndGame: bool): int
    requires Shaped(b)
  {
    TableValue(b, WHITE, PAWN, isEndGame) + TableValue(b, WHITE, ROOK, isEndGame)
    + TableValue(b, WHITE, KNIGHT, isEndGame) + TableValue(b, WHITE, BISHOP, isEndGame)
    + TableValue(b, WHITE, QUEEN, isEndGame) + TableValue(b, WHITE, KING, isEndGame)
    + TableValue(b, BLACK, PAWN, isEndGame) + TableValue(b, BLACK, ROOK, isEndGame)
    + TableValue(b, BLACK, KNIGHT, isEndGame) + TableValue(b, BLACK, BISHOP, isEndGame)
    + TableValue(b, BLACK, QUEEN, isEndGame) + TableValue(b, BLACK, KING, isEndGame)
  }

  /** Only the kings' terms depend on whether it is the end game. */
  lemma EndGameKingsOnly(b: PiecePosition, side: nat, piece: nat)
    requires Shaped(b) && side < 2 && piece < KING
    ensures TableValue(b, side, piece, true) == TableValue(b, side, piece, false)
  {
    PieceSquareTables.LateGameOnlyKing(side, piece);
  }

  /** On a mirrored board each piece's table term is as large for black as for white. */
  lemma TableValueMirrored(b: PiecePosition, piece: nat, isEndGame: bool)
    requires Shaped(b) && piece < 6 && MirroredBoard(b)
    ensures TableValue(b, BLACK, piece, isEndGame) == -TableValue(b, WHITE, piece, isEndGame)
  {
    hide SquareSum, PieceSquareTables.SquareTable, PieceSquareTables.Mirrored;
    PieceSquareTables.SquareTableMirrored(piece, isEndGame);
    SquareSumMirrored(b.pieces[BLACK][piece], b.pieces[WHITE][piece],
      PieceSquareTables.SquareTable(BLACK, piece, isEndGame), PieceSquareTables.SquareTable(WHITE, piece, isEndGame));
  }

  /** A mirrored board is balanced in the square tables. */
  lemma SquareTableScoreMirrored(b: PiecePosition, isEndGame: bool)
    requires Shaped(b) && MirroredBoard(b)
    ensures SquareTableScore(b, isEndGame) == 0
  {
    hide TableValue, MirroredBoard;
    TableValueMirrored(b, PAWN, isEndGame);
    TableValueMirrored(b, ROOK, isEndGame);
    TableValueMirrored(b, KNIGHT, isEndGame);
    TableValueMirrored(b, BISHOP, isEndGame);
    TableValueMirrored(b, QUEEN, isEndGame);
    TableValueMirrored(b, KING, isEndGame);
  }

  /** `get_square_table_values`: the twelve table terms, the kings' by `is_end_game`. */
  method GetSquareTableValues(pos: Position) returns (result: int)
    requires pos.Valid()
    ensures result == SquareTableScore(pos.board, IsEndGame(pos.Value()))
  {
    hide SquareSum, Signed, PieceSquareTables.SquareTable, Terms, Total;
    var b := pos.board;
    var isEndGame := IsEndGame(pos.Value());
    result := 0;
    var v := PieceSquareTableValue(b, WHITE, PAWN, PieceSquareTables.SquareTable(WHITE, PAWN, isEndGame));
    result := result + v;
    v := PieceSquareTableValue(b, WHITE, ROOK, PieceSquareTables.SquareTable(WHITE, ROOK, isEndGame));
    result := result + v;
    v := PieceSquareTableValue(b, WHITE, KNIGHT, PieceSquareTables.SquareTable(WHITE, KNIGHT, isEndGame));
    result := result + v;
    v := PieceSquareTableValue(b, WHITE, BISHOP, PieceSquareTables.SquareTable(WHITE, BISHOP, isEndGame));
    result := result + v;
    v := PieceSquareTableValue(b, WHITE, QUEEN, PieceSquareTables.SquareTable(WHITE, QUEEN, isEndGame));
    result := result + v;
    // the king's table is the end-game one exactly when `isEndGame` holds
    v := PieceSquareTableValue(b, WHITE, KING, PieceSquareTables.SquareTable(WHITE, KING, isEndGame));
    result := result + v;
    v := PieceSquareTableValue(b, BLACK, PAWN, PieceSquareTables.SquareTable(BLACK, PAWN, isEndGame));
    result := result + v;
    v := PieceSquareTableValue(b, BLACK, ROOK, PieceSquareTables.SquareTable(BLACK, ROOK, isEndGame));
    result := result + v;
    v := PieceSquareTableValue(b, BLACK, KNIGHT, PieceSquareTables.SquareTable(BLACK, KNIGHT, isEndGame));
    result := result + v;
    v := PieceSquareTableValue(b, BLACK, BISHOP, PieceSquareTables.SquareTable(BLACK, BISHOP, isEndGame));
    result := result + v;
    v := PieceSquareTableValue(b, BLACK, QUEEN, PieceSquareTables.SquareTable(BLACK, QUEEN, isEndGame));
    result := result + v;
    // the king's table is the end-game one exactly when `isEndGame` holds
    v := PieceSquareTableValue(b, BLACK, KING, PieceSquareTables.SquareTable(BLACK, KING, isEndGame));
    result := result + v;
  }

  // ---- Mobility ----

  /**
   * What one move adds to a mobility score: `SILENT_MOVE_VALUE` for a quiet move, and
   * `(captured + bonus) * CAPTURE_VALUE` for a capture.
   */
  function MoveScore(bonus: nat): MoveInfo -> nat
  {
    (mi: MoveInfo) => if mi.capturedPiece.Some? then ((mi.capturedPiece.value + bonus) * CAPTURE_VALUE) as nat else SILENT_MOVE_VALUE as nat
  }

  /** No move of `ms` captures. */
  predicate Quiet(ms: seq<MoveInfo>)
  {
    forall i :: 0 <= i < |ms| ==> ms[i].capturedPiece.None?
  }

  /**
   * Every move scores at least a quiet move, and the score is exactly one quiet move per
   * move when, and only when, no move captures.
   */
  lemma {:induction false} MobilityBounds(ms: seq<MoveInfo>, bonus: nat)
    requires bonus >= 1
    ensures Sum(ms, MoveScore(bonus)) >= |ms| * SILENT_MOVE_VALUE
    ensures Sum(ms, MoveScore(bonus)) == |ms| * SILENT_MOVE_VALUE <==> Quiet(ms)
  {
    if ms != [] {
      MobilityBounds(ms[1..], bonus);
      assert Quiet(ms) <==> ms[0].capturedPiece.None? && Quiet(ms[1..]) by {
        if Quiet(ms[1..]) && ms[0].capturedPiece.None? {
          forall i | 0 <= i < |ms| ensures ms[i].capturedPiece.None? {
            if i > 0 {
              assert ms[i] == ms[1..][i - 1];
            }
          }
        }
        if Quiet(ms) {
          forall i | 0 <= i < |ms[1..]| ensures ms[1..][i].capturedPiece.None? {
            assert ms[1..][i] == ms[i + 1];
          }
        }
      }
    }
  }

  /** The mobility loop of `get_mobility_values`: each move's score, added up. */
  method ScoreMoves(ms: seq<MoveInfo>, bonus: nat) returns (score: nat)
    ensures score == Sum(ms, MoveScore(bonus))
  {
    ghost var f := MoveScore(bonus);
    score := 0;
    var i := 0;
    while i < |ms|
      invariant 0 <= i <= |ms|
      invariant score + Sum(ms[i..], f) == Sum(ms, f)
    {
      SumStep(ms, i, f);
      var m := ms[i];
      if m.capturedPiece.Some? {
        score := score + ((m.capturedPiece.value + bonus) * CAPTURE_VALUE) as nat;
      } else {
        score := score + SILENT_MOVE_VALUE as nat;
      }
      i := i + 1;
    }
    assert ms[|ms|..] == [];
  }

  /** Both kings are on the board, as generating the moves of either side needs. */
  predicate BothKings(p: PositionValue)
  {
    WellFormed(p) && p.board.pieces[WHITE][KING] != 0 && p.board.pieces[BLACK][KING] != 0
  }

  /** The position with the other side to move. */
  function Flipped(p: PositionValue): (q: PositionValue)
    ensures q.sideToMove == Opposite(p.sideToMove) && q.board == p.board
  {
    p.(sideToMove := Opposite(p.sideToMove))
  }

  /**
   * `get_mobility_values`: the pseudo-legal moves of the side to move, whose captures
   * score `(captured + 2) * CAPTURE_VALUE`, and those of the other side, whose captures
   * score `(captured + 1) * CAPTURE_VALUE`; the other side's score minus the side to
   * move's one counts for white, and the other way round for black.
   */
  function MobilityValue(lk: Lookups, p: PositionValue): int
    requires BothKings(p)
  {
    var toMove := Sum(PseudoLegal(lk, p, All), MoveScore(2));
    var other := Sum(PseudoLegal(lk, Flipped(p), All), MoveScore(1));
    Signed(p.sideToMove, other - toMove)
  }

  /** The mobility value from the two sides' move scores. */
  lemma MobilityValueIs(lk: Lookups, p: PositionValue, toMove: int, other: int)
    requires BothKings(p)
    requires toMove == Sum(PseudoLegal(lk, p, All), MoveScore(2))
    requires other == Sum(PseudoLegal(lk, Flipped(p), All), MoveScore(1))
    ensures MobilityValue(lk, p) == Signed(p.sideToMove, other - toMove)
  {
    hide PseudoLegal, Sum, MoveScore;
  }

  /** Without captures on either side, mobility is the difference of the move counts. */
  lemma MobilityQuiet(lk: Lookups, p: PositionValue)
    requires BothKings(p) && Quiet(PseudoLegal(lk, p, All)) && Quiet(PseudoLegal(lk, Flipped(p), All))
    ensures MobilityValue(lk, p) == Signed(p.sideToMove, |PseudoLegal(lk, Flipped(p), All)| - |PseudoLegal(lk, p, All)|)
  {
    hide PseudoLegal, Sum, MoveScore;
    MobilityBounds(PseudoLegal(lk, p, All), 2);
    MobilityBounds(PseudoLegal(lk, Flipped(p), All), 1);
  }

  /**
   * `get_mobility_values` on the engine's position: generates the moves of the side to
   * move, hands the move to the other side for its moves and back. The position ends
   * as it started.
   */
  method GetMobilityValues(lk: Lookups, pos: Position) returns (result: int)
    requires pos.Valid() && BothKings(pos.Value())
    modifies pos
    ensures result == MobilityValue(lk, old(pos.Value()))
    ensures pos.Value() == old(pos.Value())
  {
    hide PseudoLegal, Sum, MoveScore, MobilityValue;
    ghost var p := pos.Value();
    var toMoveMoves := GetPseudoLegalMoves(lk, pos.Value(), All);
    var toMoveScore := ScoreMoves(toMoveMoves, 2);
    pos.sideToMove := Opposite(pos.sideToMove);
    assert pos.Value() == Flipped(p);
    var otherMoves := GetPseudoLegalMoves(lk, pos.Value(), All);
    pos.sideToMove := Opposite(pos.sideToMove);
    assert pos.Value() == p;
    var otherScore := ScoreMoves(otherMoves, 1);
    MobilityValueIs(lk, p, toMoveScore, otherScore);
    result := 0;
    if pos.sideToMove == WHITE {
      result := result + otherScore;
      result := result - toMoveScore;
    } else if pos.sideToMove == BLACK {
      result := result - otherScore;
      result := result + toMoveScore;
    }
  }

  // ---- The static evaluation ----

  /** The evaluation from white's side: material, mobility and the square tables. */
  function WhiteScore(lk: Lookups, p: PositionValue): int
    requires BothKings(p)
  {
    Material(p.board) + MobilityValue(lk, p) + SquareTableScore(p.board, IsEndGame(p))
  }

  /** `static_evaluation` without its cache: the white-side score, signed for the side to move. */
  function Score(lk: Lookups, p: PositionValue): int
    requires BothKings(p)
  {
    Signed(p.sideToMove, WhiteScore(lk, p))
  }

  /** The score from the sum of its three parts. */
  lemma ScoreIs(lk: Lookups, p: PositionValue, white: int)
    requires BothKings(p)
    requires white == Material(p.board) + MobilityValue(lk, p) + SquareTableScore(p.board, IsEndGame(p))
    ensures Score(lk, p) == Signed(p.sideToMove, white)
  {
    hide Material, MobilityValue, SquareTableScore, IsEndGame;
  }

  /**
   * On a mirrored board material and tables cancel, and the score is mobility alone;
   * the two sides' scores of the same board differ only in the mobility term.
   */
  lemma ScoreMirrored(lk: Lookups, p: PositionValue)
    requires BothKings(p) && MirroredBoard(p.board)
    ensures Score(lk, p) == Signed(p.sideToMove, MobilityValue(lk, p))
  {
    hide PiecesValue, TableValue, PseudoLegal, MobilityValue, IsEndGame;
    MaterialMirrored(p.board);
    SquareTableScoreMirrored(p.board, IsEndGame(p));
  }

  /**
   * `static_evaluation`: a hash already in the cache gives its cached score and nothing
   * changes; otherwise the score is computed, stored under the hash and returned. Both
   * kings must be on the board when the score is computed.
   */
  method StaticEvaluation(lk: Lookups, e: Engine) returns (score: int)
    requires e.position.Valid()
    requires e.position.zobrist !in e.evaluationTable ==> BothKings(e.position.Value())
    modifies e, e.position
    ensures e.position == old(e.position) && e.position.Value() == old(e.position.Value())
    ensures e.hashHistory == old(e.hashHistory) && e.isSearching == old(e.isSearching) && e.staticEval == old(e.staticEval)
    ensures old(e.position.zobrist) in old(e.evaluationTable) ==>
      score == old(e.evaluationTable)[old(e.position.zobrist)] && e.evaluationTable == old(e.evaluationTable)
    ensures old(e.position.zobrist) !in old(e.evaluationTable) ==>
      score == Score(lk, old(e.position.Value())) && e.evaluationTable == old(e.evaluationTable)[old(e.position.zobrist) := score]
  {
    hide MobilityValue, SquareTableScore, IsEndGame, PiecesValue, Score, WhiteScore, PseudoLegal;
    var pos := e.position;
    var hash := pos.zobrist;
    if hash in e.evaluationTable {
      return e.evaluationTable[hash];
    }
    ghost var p := pos.Value();
    var b := pos.board;
    var result := 0;
    result := result + PiecesValue(b, WHITE, PAWN, PAWN_VALUE);
    result := result + PiecesValue(b, WHITE, ROOK, ROOK_VALUE);
    result := result + PiecesValue(b, WHITE, KNIGHT, KNIGHT_VALUE);
    result := result + PiecesValue(b, WHITE, BISHOP, BISHOP_VALUE);
    result := result + PiecesValue(b, WHITE, QUEEN, QUEEN_VALUE);
    result := result + PiecesValue(b, WHITE, KING, KING_VALUE);
    result := result + PiecesValue(b, BLACK, PAWN, PAWN_VALUE);
    result := result + PiecesValue(b, BLACK, ROOK, ROOK_VALUE);
    result := result + PiecesValue(b, BLACK, KNIGHT, KNIGHT_VALUE);
    result := result + PiecesValue(b, BLACK, BISHOP, BISHOP_VALUE);
    result := result + PiecesValue(b, BLACK, QUEEN, QUEEN_VALUE);
    result := result + PiecesValue(b, BLACK, KING, KING_VALUE);
    assert result == Material(p.board);
    var mobility := GetMobilityValues(lk, pos);
    result := result + mobility;
    var tables := GetSquareTableValues(pos);
    result := result + tables;
    ScoreIs(lk, p, result);
    if pos.sideToMove == WHITE {
      score := result;
    } else if pos.sideToMove == BLACK {
      score := -result;
    } else {
      score := 0;
    }
    e.evaluationTable := e.evaluationTable[hash := score];
  }

  // ---- Mate and stalemate ----

  /** The side to move is in check: the other side, were it to move, could take its king. */
  predicate InCheck(lk: Lookups, p: PositionValue)
    requires BothKings(p)
  {
    PositionCheck(lk, Flipped(p))
  }

  /** The score of being mated `depth` plies into the search: below 0, and less bad the later it comes. */
  function MateScore(depth: nat): (s: int)
    ensures depth < MATE_VALUE ==> s < 0
  {
    -(MATE_VALUE - depth)
  }

  /**
   * `check_mate_or_stalemate`: while searching and with no move to play, the mate score
   * when the side to move is in check and 0 (a stalemate is a draw) otherwise; no score
   * in any other case. The side to move is handed over for the test and back.
   */
  method CheckMateOrStalemate(lk: Lookups, e: Engine, totMoves: nat, actualDepth: nat) returns (r: Option<int>)
    requires e.position.Valid()
    requires e.isSearching && totMoves == 0 ==> BothKings(e.position.Value())
    modifies e.position
    ensures e.position.Value() == old(e.position.Value())
    ensures r.Some? <==> e.isSearching && totMoves == 0
    ensures r.Some? ==> r.value == if InCheck(lk, old(e.position.Value())) then MateScore(actualDepth) else 0
  {
    if e.isSearching && totMoves == 0 {
      var pos := e.position;
      ghost var p := pos.Value();
      pos.sideToMove := Opposite(pos.sideToMove);
      assert pos.Value() == Flipped(p);
      var isCheck := IsPositionCheck(lk, pos);
      pos.sideToMove := Opposite(pos.sideToMove);
      assert pos.Value() == p;
      if isCheck {
        return Some(-(MATE_VALUE - actualDepth));
      } else {
        return Some(0);
      }
    }
    return None;
  }
}
