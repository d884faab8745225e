/**
 * The text board of board/display.rs: `get_empty_board` lays out eight lines of sixteen
 * characters with a cell per square, `display_pieces` writes a letter into the cells of a
 * bitboard's squares, `get_board` paints all twelve piece boards, swaps every letter for
 * its chess glyph and frames the result, `print_bitboard` shows one bitboard, and
 * `get_castling_info` lists the castling rights.
 */
module Render {
  import opened Wrappers
  import opened Bits
  import opened Models
  import Fen
  import Notation

  // ---------------------------------------------------------------------------------
  // Geometry of the text board
  // ---------------------------------------------------------------------------------

  /**
   * The character offset of square `sq`'s cell: line 7 - rank (rank 8 is the first
   * line), then the three characters of the rank number and bar, then the file.
   */
  function CellOf(sq: nat): (k: nat)
    requires sq < 64
    ensures k < 123
  {
    (7 - sq / 8) * 16 + sq % 8 + 3
  }

  /** The square whose cell is at offset `k`, if `k` is a cell of the 128-character board. */
  function SquareOfCell(k: nat): (sq: Option<nat>)
    ensures sq.Some? ==> sq.value < 64
  {
    if k < 128 && 3 <= k % 16 < 11 then Some((7 - k / 16) * 8 + k % 16 - 3) else None
  }

  /** Every square has a cell, and that cell is the square's. */
  lemma CellSquare(sq: nat)
    requires sq < 64
    ensures SquareOfCell(CellOf(sq)) == Some(sq)
  {
  }

  /** Every cell belongs to exactly the square `CellOf` puts there. */
  lemma SquareCell(k: nat)
    ensures SquareOfCell(k).Some? ==> CellOf(SquareOfCell(k).value) == k
  {
  }

  /** The dark squares: a1 and every square an even number of files and ranks from it. */
  predicate Dark(sq: nat)
  {
    (sq / 8 + sq % 8) % 2 == 0
  }

  /** What the empty board shows in a square's cell: '?' on a dark square, '!' on a light one. */
  function EmptyCell(sq: nat): char
  {
    if Dark(sq) then '?' else '!'
  }

  /** Every character is ASCII, so that byte offsets and character offsets agree. */
  predicate Ascii(s: string)
  {
    forall k | 0 <= k < |s| :: s[k] as int < 128
  }

  // ---------------------------------------------------------------------------------
  // get_empty_board
  // ---------------------------------------------------------------------------------

  /** `(0..n).map(|_| s).collect::<String>()`: n copies of `s`. */
  function Repeat(s: string, n: nat): (r: string)
    ensures |r| == |s| * n
    ensures |s| == 2 ==> forall j | 0 <= j < |r| :: r[j] == s[j % 2]
  {
    if n == 0 then "" else s + Repeat(s, n - 1)
  }

  /** The decimal digit of a number below ten. */
  function DigitChar(n: nat): (c: char)
    requires n < 10
    ensures '0' <= c <= '9'
  {
    ('0' as int + n) as char
  }

  /** The eight cells of line `i`: '!' and '?' in turn, starting with '!' on even lines. */
  function EmptyCells(i: nat): (cells: string)
    ensures |cells| == 8
  {
    if i % 2 == 0 then Repeat("!?", 4) else Repeat("?!", 4)
  }

  /** The rank number written at both ends of line `i`: 8 for line 0 down to 1 for line 7. */
  function RankNumber(i: nat): (s: string)
    requires i < 8
    ensures |s| == 1
  {
    [DigitChar(8 - i)]
  }

  /** Line `i` of the empty board: the rank number and " |", the cells, " | ", the rank number and a newline. */
  function EmptyRow(i: nat): (row: string)
    requires i < 8
    ensures |row| == 16
  {
    (RankNumber(i) + " |") + EmptyCells(i) + (" | " + RankNumber(i) + "\n")
  }

  /** The first `n` lines of the empty board. */
  function Rows(n: nat): (r: string)
    requires n <= 8
    ensures |r| == 16 * n
  {
    if n == 0 then "" else Rows(n - 1) + EmptyRow(n - 1)
  }

  /** The empty board: all eight lines. */
  function EmptyBoard(): (r: string)
    ensures |r| == 128
  {
    Rows(8)
  }

  /** Appending three strings one after the other appends their concatenation. */
  lemma AppendThree(a: string, x: string, y: string, z: string)
    ensures a + x + y + z == a + (x + y + z)
  {
  }

  /** `get_empty_board`: the two cell patterns, then one line per rank from 8 down to 1. */
  method GetEmptyBoard() returns (board: string)
    ensures board == EmptyBoard()
  {
    hide Repeat, DigitChar;
    var emptyRowA := Repeat("!?", 4);
    var emptyRowB := Repeat("?!", 4);
    board := "";
    for i := 0 to 8
      invariant board == Rows(i)
    {
      var row := if i % 2 == 0 then emptyRowA else emptyRowB;
      var number := [DigitChar(8 - i)];
      assert row == EmptyCells(i) && number == RankNumber(i);
      ghost var before := board;
      board := board + (number + " |");
      board := board + row;
      board := board + (" | " + number + "\n");
      AppendThree(before, number + " |", row, " | " + number + "\n");
    }
  }

  /** Cell `c` of line `i` is '!' when `i + c` is even and '?' when it is odd. */
  lemma EmptyRowCell(i: nat, c: nat)
    requires i < 8 && c < 8
    ensures EmptyRow(i)[3 + c] == if (i + c) % 2 == 0 then '!' else '?'
  {
    hide Repeat;
    assert EmptyRow(i)[3 + c] == EmptyCells(i)[c];
  }

  /** Outside its cells, line `i` holds ASCII characters other than '!' and '?'; it starts with its rank number and ends with a newline. */
  lemma EmptyRowFrame(i: nat, j: nat)
    requires i < 8 && (j < 3 || 11 <= j < 16)
    ensures EmptyRow(i)[j] as int < 128 && EmptyRow(i)[j] != '!' && EmptyRow(i)[j] != '?'
    ensures j == 0 ==> EmptyRow(i)[j] == DigitChar(8 - i)
    ensures j == 15 ==> EmptyRow(i)[j] == '\n'
  {
    hide Repeat, EmptyCells, DigitChar;
    var front := RankNumber(i) + " |";
    var back := " | " + RankNumber(i) + "\n";
    if j < 3 {
      assert EmptyRow(i)[j] == front[j];
    } else {
      assert EmptyRow(i)[j] == back[j - 11];
    }
  }

  /** Character `j` of line `r` sits at offset `16 * r + j` of the first `n` lines. */
  lemma {:induction false} RowsAt(n: nat, r: nat, j: nat)
    requires r < n <= 8 && j < 16
    ensures Rows(n)[16 * r + j] == EmptyRow(r)[j]
  {
    hide EmptyRow, Repeat;
    var prev := Rows(n - 1);
    assert Rows(n) == prev + EmptyRow(n - 1);
    if r < n - 1 {
      RowsAt(n - 1, r, j);
      assert 16 * r + j < |prev|;
    } else {
      assert |prev| == 16 * r;
    }
  }

  /** Division by 8 of a number written as 8 q + m. */
  lemma DivMod8(q: nat, m: nat)
    requires m < 8
    ensures (8 * q + m) / 8 == q && (8 * q + m) % 8 == m
  {
  }

  /** Character `k` of the empty board, by where it falls on its line. */
  lemma EmptyBoardAt(k: nat)
    requires k < 128
    ensures SquareOfCell(k).None? ==> EmptyBoard()[k] as int < 128 && EmptyBoard()[k] != '!' && EmptyBoard()[k] != '?'
    ensures k % 16 == 0 ==> EmptyBoard()[k] == DigitChar(8 - k / 16)
    ensures k % 16 == 15 ==> EmptyBoard()[k] == '\n'
    ensures SquareOfCell(k).Some? ==> EmptyBoard()[k] == EmptyCell(SquareOfCell(k).value)
  {
    hide Rows, EmptyRow, Repeat, EmptyCells, DigitChar;
    var r := k / 16;
    var j := k % 16;
    assert k == 16 * r + j;
    RowsAt(8, r, j);
    if 3 <= j < 11 {
      EmptyRowCell(r, j - 3);
      var sq := 8 * (7 - r) + (j - 3);
      assert SquareOfCell(k) == Some(sq);
      DivMod8(7 - r, j - 3);
    } else {
      EmptyRowFrame(r, j);
    }
  }

  /**
   * `get_empty_board` gives 128 ASCII characters: each line starts with its rank number
   * (8 down to 1) and ends with a newline; each square's cell shows '?' if the square is
   * dark and '!' if it is light; no other character is a '!' or a '?'.
   */
  lemma EmptyBoardLayout()
    ensures |EmptyBoard()| == 128 && Ascii(EmptyBoard())
    ensures forall k | 0 <= k < 128 && k % 16 == 0 :: EmptyBoard()[k] == DigitChar(8 - k / 16)
    ensures forall k | 0 <= k < 128 && k % 16 == 15 :: EmptyBoard()[k] == '\n'
    ensures forall sq | 0 <= sq < 64 :: EmptyBoard()[CellOf(sq)] == EmptyCell(sq)
    ensures forall k | 0 <= k < 128 && SquareOfCell(k).None? :: EmptyBoard()[k] != '!' && EmptyBoard()[k] != '?'
  {
    forall k | 0 <= k < 128
      ensures EmptyBoard()[k] as int < 128
      ensures k % 16 == 0 ==> EmptyBoard()[k] == DigitChar(8 - k / 16)
      ensures k % 16 == 15 ==> EmptyBoard()[k] == '\n'
      ensures SquareOfCell(k).None? ==> EmptyBoard()[k] != '!' && EmptyBoard()[k] != '?'
    {
      EmptyBoardAt(k);
    }
    forall sq | 0 <= sq < 64
      ensures EmptyBoard()[CellOf(sq)] == EmptyCell(sq)
    {
      CellSquare(sq);
      EmptyBoardAt(CellOf(sq));
    }
  }

  // ---------------------------------------------------------------------------------
  // display_pieces
  // ---------------------------------------------------------------------------------

  /** The cell of every square of `pieces` lies inside a board of `n` characters. */
  predicate CellsFit(pieces: bv64, n: nat)
  {
    forall sq | 0 <= sq < 64 && Has(pieces, sq) :: CellOf(sq) < n
  }

  /** Every cell lies inside the 128-character board. */
  lemma AllCellsFit(pieces: bv64, n: nat)
    requires n >= 128
    ensures CellsFit(pieces, n)
  {
  }

  /** Offset `k` is the cell of a square of `pieces` numbered `lo` or higher. */
  predicate Marked(pieces: bv64, k: nat, lo: nat)
  {
    SquareOfCell(k).Some? && SquareOfCell(k).value >= lo && Has(pieces, SquareOfCell(k).value)
  }

  /** The board with `sub` written into the cell of every square of `pieces` numbered `lo` or higher. */
  function PaintedFrom(pieces: bv64, board: string, sub: char, lo: nat): (r: string)
    ensures |r| == |board|
  {
    seq(|board|, k requires 0 <= k < |board| => if Marked(pieces, k, lo) then sub else board[k])
  }

  /** The board with `sub` written into the cell of every square of `pieces`. */
  function Painted(pieces: bv64, board: string, sub: char): (r: string)
    ensures |r| == |board|
  {
    PaintedFrom(pieces, board, sub, 0)
  }

  /**
   * `display_pieces`: for each '1' among the binary digits of `pieces`, the one at index
   * `i` stands for square 63 - i, on line i / 8 and in column (63 - i) % 8, and its cell
   * at `16 * line + column + 3` is replaced by `sub`. The board keeps its length.
   */
  method DisplayPieces(pieces: bv64, board: string, sub: char) returns (r: string)
    requires CellsFit(pieces, |board|)
    ensures r == Painted(pieces, board, sub)
  {
    var formatted := Notation.Binary64(pieces);
    r := board;
    assert r == PaintedFrom(pieces, board, sub, 64);
    for index := 0 to 64
      invariant r == PaintedFrom(pieces, board, sub, 64 - index)
    {
      var row := index / 8;
      var column := (63 - index) % 8;
      var pos := row * 16 + column + 3;
      PositionIsCell(index, pos);
      if formatted[index] == '1' {
        PaintOne(pieces, board, sub, r, 63 - index, pos);
        r := r[..pos] + [sub] + r[pos + 1..];
      } else {
        PaintNone(pieces, board, sub, r, 63 - index);
      }
    }
  }

  /** The offset `display_pieces` computes for digit `index` is the cell of square 63 - index. */
  lemma PositionIsCell(index: nat, pos: nat)
    requires index < 64 && pos == (index / 8) * 16 + (63 - index) % 8 + 3
    ensures pos == CellOf(63 - index)
  {
  }

  /** Painting square `sq` of `pieces` extends the painting of the squares above it. */
  lemma PaintOne(pieces: bv64, board: string, sub: char, r: string, sq: nat, pos: nat)
    requires sq < 64 && Has(pieces, sq) && CellsFit(pieces, |board|) && pos == CellOf(sq)
    requires r == PaintedFrom(pieces, board, sub, sq + 1)
    ensures pos < |r| && r[..pos] + [sub] + r[pos + 1..] == PaintedFrom(pieces, board, sub, sq)
  {
    CellSquare(sq);
    var next := r[..pos] + [sub] + r[pos + 1..];
    var want := PaintedFrom(pieces, board, sub, sq);
    forall k | 0 <= k < |board|
      ensures next[k] == want[k]
    {
      SquareCell(k);
    }
  }

  /** A square outside `pieces` leaves the painting as it is. */
  lemma PaintNone(pieces: bv64, board: string, sub: char, r: string, sq: nat)
    requires sq < 64 && !Has(pieces, sq)
    requires r == PaintedFrom(pieces, board, sub, sq + 1)
    ensures r == PaintedFrom(pieces, board, sub, sq)
  {
    var want := PaintedFrom(pieces, board, sub, sq);
    forall k | 0 <= k < |board|
      ensures r[k] == want[k]
    {
    }
  }

  /** The digit `display_pieces` reads at index `i` is '1' exactly when square 63 - i is set. */
  lemma Binary64Digit(x: bv64, i: nat)
    requires i < 64
    ensures Notation.Binary64(x)[i] == '1' <==> Has(x, 63 - i)
  {
  }

  /**
   * What `display_pieces` leaves: `sub` in the cell of every square of `pieces`, the old
   * character in the cell of every other square, and every character outside the cells
   * untouched.
   */
  lemma PaintedCells(pieces: bv64, board: string, sub: char)
    requires |board| >= 128
    ensures forall sq | 0 <= sq < 64 :: Painted(pieces, board, sub)[CellOf(sq)] == if Has(pieces, sq) then sub else board[CellOf(sq)]
    ensures forall k | 0 <= k < |board| && SquareOfCell(k).None? :: Painted(pieces, board, sub)[k] == board[k]
  {
    forall sq | 0 <= sq < 64
      ensures Painted(pieces, board, sub)[CellOf(sq)] == if Has(pieces, sq) then sub else board[CellOf(sq)]
    {
      CellSquare(sq);
    }
  }

  /** The cell of square `sq` after painting, for a cell inside the board. */
  lemma PaintedAt(pieces: bv64, board: string, sub: char, sq: nat)
    requires sq < 64 && CellOf(sq) < |board|
    ensures Painted(pieces, board, sub)[CellOf(sq)] == if Has(pieces, sq) then sub else board[CellOf(sq)]
  {
    CellSquare(sq);
  }

  /** Painting an ASCII character on an ASCII board keeps it ASCII. */
  lemma PaintedAscii(pieces: bv64, board: string, sub: char)
    requires Ascii(board) && sub as int < 128
    ensures Ascii(Painted(pieces, board, sub))
  {
  }

  // ---------------------------------------------------------------------------------
  // String replacement
  // ---------------------------------------------------------------------------------

  /** `str::replace` with a character pattern: every `c` of `s` becomes `t`. */
  function Replace(s: string, c: char, t: string): (r: string)
  {
    if s == [] then [] else (if s[0] == c then t else [s[0]]) + Replace(s[1..], c, t)
  }

  /** Replacing in a concatenation replaces in both parts. */
  lemma {:induction false} ReplaceConcat(a: string, b: string, c: char, t: string)
    ensures Replace(a + b, c, t) == Replace(a, c, t) + Replace(b, c, t)
  {
    if a == [] {
      assert a + b == b;
    } else {
      assert (a + b)[1..] == a[1..] + b;
      ReplaceConcat(a[1..], b, c, t);
    }
  }

  /** Replacing by a single character keeps every offset: `c` becomes `u`, the rest stays. */
  lemma {:induction false} ReplaceByChar(s: string, c: char, u: char)
    ensures |Replace(s, c, [u])| == |s|
    ensures forall k | 0 <= k < |s| :: Replace(s, c, [u])[k] == if s[k] == c then u else s[k]
  {
    if s != [] {
      ReplaceByChar(s[1..], c, u);
    }
  }

  // ---------------------------------------------------------------------------------
  // print_bitboard
  // ---------------------------------------------------------------------------------

  /**
   * `print_bitboard`: the empty board with '1' in the cells of the squares of `bitboard`
   * and '_' in every other cell; the labels, bars and newlines are those of the empty board.
   */
  method PrintBitboard(bitboard: bv64) returns (board: string)
    ensures |board| == 128
    ensures forall sq | 0 <= sq < 64 :: board[CellOf(sq)] == if Has(bitboard, sq) then '1' else '_'
    ensures forall k | 0 <= k < 128 && SquareOfCell(k).None? :: board[k] == EmptyBoard()[k]
  {
    board := GetEmptyBoard();
    AllCellsFit(bitboard, |board|);
    board := DisplayPieces(bitboard, board, '1');
    ghost var painted := board;
    board := Replace(board, '!', "_");
    ghost var once := board;
    board := Replace(board, '?', "_");
    EmptyBoardLayout();
    PaintedCells(bitboard, EmptyBoard(), '1');
    ReplaceByChar(painted, '!', '_');
    ReplaceByChar(once, '?', '_');
    forall sq | 0 <= sq < 64
      ensures board[CellOf(sq)] == if Has(bitboard, sq) then '1' else '_'
    {
      assert EmptyBoard()[CellOf(sq)] == EmptyCell(sq);
    }
  }

  // ---------------------------------------------------------------------------------
  // get_board
  // ---------------------------------------------------------------------------------

  /** The piece order of `get_board`'s painting, each piece white first, then black. */
  const PAINT_PIECES: seq<nat> := [PAWN, KNIGHT, BISHOP, ROOK, QUEEN, KING]

  /** The side painted at step `i`. */
  function StageSide(i: nat): (side: nat)
    ensures side < 2
  {
    i % 2
  }

  /** The piece painted at step `i`. */
  function StagePiece(i: nat): (piece: nat)
    requires i < 12
    ensures piece < 6
  {
    PAINT_PIECES[i / 2]
  }

  /** The FEN letter of a piece: upper case for white, lower case for black. */
  function Letter(side: nat, piece: nat): (c: char)
    requires side < 2 && piece < 6
  {
    if side == WHITE then "PBNRQK"[piece] else "pbnrqk"[piece]
  }

  /** The letters `get_board` writes are the letters the FEN reader takes for the same piece. */
  lemma LetterIsFen(side: nat, piece: nat)
    requires side < 2 && piece < 6
    ensures Fen.PieceOfLetter(Letter(side, piece)) == Some((side, piece))
  {
  }

  /** The board after the first `n` of `get_board`'s twelve `display_pieces` calls. */
  function PaintStage(b: PiecePosition, n: nat): (r: string)
    requires Shaped(b) && n <= 12
    ensures |r| == 128
  {
    if n == 0 then EmptyBoard()
    else
      var i := n - 1;
      Painted(b.pieces[StageSide(i)][StagePiece(i)], PaintStage(b, i), Letter(StageSide(i), StagePiece(i)))
  }

  /** One more `display_pieces` call of `get_board`. */
  lemma PaintStageStep(b: PiecePosition, n: nat)
    requires Shaped(b) && 0 < n <= 12
    ensures PaintStage(b, n)
         == Painted(b.pieces[StageSide(n - 1)][StagePiece(n - 1)], PaintStage(b, n - 1), Letter(StageSide(n - 1), StagePiece(n - 1)))
  {
  }

  /** The cell of a square no piece board among the first `n` holds keeps the empty board's mark. */
  lemma {:induction false} StageUntouched(b: PiecePosition, sq: nat, n: nat)
    requires Shaped(b) && sq < 64 && n <= 12
    requires forall i | 0 <= i < n :: !Has(b.pieces[StageSide(i)][StagePiece(i)], sq)
    ensures PaintStage(b, n)[CellOf(sq)] == EmptyBoard()[CellOf(sq)]
  {
    if n > 0 {
      var x := b.pieces[StageSide(n - 1)][StagePiece(n - 1)];
      var before := PaintStage(b, n - 1);
      var c := Letter(StageSide(n - 1), StagePiece(n - 1));
      assert PaintStage(b, n) == Painted(x, before, c);
      hide PaintStage, Painted, EmptyBoard, Letter, Has;
      StageUntouched(b, sq, n - 1);
      PaintedAt(x, before, c, sq);
    }
  }

  /** The cell of a square held by exactly one of the first `n` piece boards shows that piece's letter. */
  lemma {:induction false} StageShows(b: PiecePosition, sq: nat, n: nat, i: nat)
    requires Shaped(b) && sq < 64 && i < n <= 12
    requires Has(b.pieces[StageSide(i)][StagePiece(i)], sq)
    requires forall j | 0 <= j < n && j != i :: !Has(b.pieces[StageSide(j)][StagePiece(j)], sq)
    ensures PaintStage(b, n)[CellOf(sq)] == Letter(StageSide(i), StagePiece(i))
  {
    hide PaintStage, Painted, EmptyBoard, Letter, Has, StageSide, StagePiece, CellOf;
    var x := b.pieces[StageSide(n - 1)][StagePiece(n - 1)];
    var before := PaintStage(b, n - 1);
    var c := Letter(StageSide(n - 1), StagePiece(n - 1));
    PaintStageStep(b, n);
    PaintedAt(x, before, c, sq);
    if i < n - 1 {
      StageShows(b, sq, n - 1, i);
    }
  }

  /** The painting step at which `get_board` writes a piece. */
  function StageOf(side: nat, piece: nat): (i: nat)
    requires side < 2 && piece < 6
    ensures i < 12 && StageSide(i) == side && StagePiece(i) == piece
  {
    2 * (if piece == PAWN then 0 else if piece == KNIGHT then 1 else if piece == BISHOP then 2
         else if piece == ROOK then 3 else if piece == QUEEN then 4 else 5) + side
  }

  /** No piece board holds the square. */
  predicate Vacated(b: PiecePosition, sq: nat)
    requires Shaped(b) && sq < 64
  {
    forall s, pc | 0 <= s < 2 && 0 <= pc < 6 :: !Has(b.pieces[s][pc], sq)
  }

  /** Only piece board (side, piece) holds the square. */
  predicate Alone(b: PiecePosition, sq: nat, side: nat, piece: nat)
    requires Shaped(b) && sq < 64
  {
    forall s, pc | 0 <= s < 2 && 0 <= pc < 6 && (s != side || pc != piece) :: !Has(b.pieces[s][pc], sq)
  }

  /** On the painted board a square held by one piece shows that piece's FEN letter. */
  lemma PaintedBoardShows(b: PiecePosition, sq: nat, side: nat, piece: nat)
    requires Shaped(b) && sq < 64 && side < 2 && piece < 6
    requires Has(b.pieces[side][piece], sq) && Alone(b, sq, side, piece)
    ensures PaintStage(b, 12)[CellOf(sq)] == Letter(side, piece)
  {
    hide PaintStage, Letter, Has;
    var i := StageOf(side, piece);
    forall j | 0 <= j < 12 && j != i
      ensures !Has(b.pieces[StageSide(j)][StagePiece(j)], sq)
    {
      assert StageSide(j) != side || StagePiece(j) != piece;
    }
    StageShows(b, sq, 12, i);
  }

  /** On the painted board an empty square shows the empty board's '?' (dark) or '!' (light). */
  lemma PaintedBoardVacant(b: PiecePosition, sq: nat)
    requires Shaped(b) && sq < 64 && Vacated(b, sq)
    ensures PaintStage(b, 12)[CellOf(sq)] == EmptyCell(sq)
  {
    hide PaintStage, Has;
    EmptyBoardLayout();
    StageUntouched(b, sq, 12);
  }

  /** Painting never touches a character outside the cells. */
  lemma {:induction false} PaintStageFrame(b: PiecePosition, n: nat, k: nat)
    requires Shaped(b) && n <= 12 && k < 128 && SquareOfCell(k).None?
    ensures PaintStage(b, n)[k] == EmptyBoard()[k]
  {
    if n > 0 {
      PaintStageFrame(b, n - 1, k);
    }
  }

  /** `get_board`'s fifteen replacements, one after the other: blanks first, then each piece letter. */
  function Rendered(s: string): (r: string)
  {
    var s1 := Replace(s, '!', "_");
    var s2 := Replace(s1, '?', "_");
    var s3 := Replace(s2, '_', BLANK_GLYPH);
    var s4 := Replace(s3, 'P', " \U{2659} ");
    var s5 := Replace(s4, 'p', " \U{265F} ");
    var s6 := Replace(s5, 'N', " \U{2658} ");
    var s7 := Replace(s6, 'n', " \U{265E} ");
    var s8 := Replace(s7, 'B', " \U{2657} ");
    var s9 := Replace(s8, 'b', " \U{265D} ");
    var s10 := Replace(s9, 'R', " \U{2656} ");
    var s11 := Replace(s10, 'r', " \U{265C} ");
    var s12 := Replace(s11, 'Q', " \U{2655} ");
    var s13 := Replace(s12, 'q', " \U{265B} ");
    var s14 := Replace(s13, 'K', " \U{2654} ");
    Replace(s14, 'k', " \U{265A} ")
  }

  /** The Unicode chess symbol of a piece: U+2654 to U+2659 for white king to pawn, U+265A on for black. */
  function Symbol(side: nat, piece: nat): (c: char)
    requires side < 2 && piece < 6
  {
    var order := if piece == KING then 0 else if piece == QUEEN then 1 else if piece == ROOK then 2
                 else if piece == BISHOP then 3 else if piece == KNIGHT then 4 else 5;
    (0x2654 + 6 * side + order) as char
  }

  /** The glyph of the empty cells: U+23E4, between two spaces. */
  const BLANK_GLYPH: string := " \U{23E4} "

  /** What `get_board` turns one character of the painted board into. */
  function Glyph(c: char): (g: string)
  {
    match c
    case '!' | '?' | '_' => BLANK_GLYPH
    case 'P' => [' ', Symbol(WHITE, PAWN), ' ']
    case 'p' => [' ', Symbol(BLACK, PAWN), ' ']
    case 'N' => [' ', Symbol(WHITE, KNIGHT), ' ']
    case 'n' => [' ', Symbol(BLACK, KNIGHT), ' ']
    case 'B' => [' ', Symbol(WHITE, BISHOP), ' ']
    case 'b' => [' ', Symbol(BLACK, BISHOP), ' ']
    case 'R' => [' ', Symbol(WHITE, ROOK), ' ']
    case 'r' => [' ', Symbol(BLACK, ROOK), ' ']
    case 'Q' => [' ', Symbol(WHITE, QUEEN), ' ']
    case 'q' => [' ', Symbol(BLACK, QUEEN), ' ']
    case 'K' => [' ', Symbol(WHITE, KING), ' ']
    case 'k' => [' ', Symbol(BLACK, KING), ' ']
    case _ => [c]
  }

  /** The painted board with every character turned into its glyph. */
  function Glyphs(s: string): (r: string)
  {
    if s == [] then [] else Glyph(s[0]) + Glyphs(s[1..])
  }

  /** Each piece letter becomes its Unicode symbol between two spaces. */
  lemma GlyphOfLetter(side: nat, piece: nat)
    requires side < 2 && piece < 6
    ensures Glyph(Letter(side, piece)) == [' ', Symbol(side, piece), ' ']
  {
  }

  /** The replacements work on the parts of a concatenation separately. */
  lemma RenderedConcat(a: string, b: string)
    ensures Rendered(a + b) == Rendered(a) + Rendered(b)
  {
    ReplaceConcat(a, b, '!', "_");
    var a1, b1 := Replace(a, '!', "_"), Replace(b, '!', "_");
    ReplaceConcat(a1, b1, '?', "_");
    var a2, b2 := Replace(a1, '?', "_"), Replace(b1, '?', "_");
    ReplaceConcat(a2, b2, '_', BLANK_GLYPH);
    var a3, b3 := Replace(a2, '_', BLANK_GLYPH), Replace(b2, '_', BLANK_GLYPH);
    ReplaceConcat(a3, b3, 'P', " \U{2659} ");
    var a4, b4 := Replace(a3, 'P', " \U{2659} "), Replace(b3, 'P', " \U{2659} ");
    ReplaceConcat(a4, b4, 'p', " \U{265F} ");
    var a5, b5 := Replace(a4, 'p', " \U{265F} "), Replace(b4, 'p', " \U{265F} ");
    ReplaceConcat(a5, b5, 'N', " \U{2658} ");
    var a6, b6 := Replace(a5, 'N', " \U{2658} "), Replace(b5, 'N', " \U{2658} ");
    ReplaceConcat(a6, b6, 'n', " \U{265E} ");
    var a7, b7 := Replace(a6, 'n', " \U{265E} "), Replace(b6, 'n', " \U{265E} ");
    ReplaceConcat(a7, b7, 'B', " \U{2657} ");
    var a8, b8 := Replace(a7, 'B', " \U{2657} "), Replace(b7, 'B', " \U{2657} ");
    ReplaceConcat(a8, b8, 'b', " \U{265D} ");
    var a9, b9 := Replace(a8, 'b', " \U{265D} "), Replace(b8, 'b', " \U{265D} ");
    ReplaceConcat(a9, b9, 'R', " \U{2656} ");
    var a10, b10 := Replace(a9, 'R', " \U{2656} "), Replace(b9, 'R', " \U{2656} ");
    ReplaceConcat(a10, b10, 'r', " \U{265C} ");
    var a11, b11 := Replace(a10, 'r', " \U{265C} "), Replace(b10, 'r', " \U{265C} ");
    ReplaceConcat(a11, b11, 'Q', " \U{2655} ");
    var a12, b12 := Replace(a11, 'Q', " \U{2655} "), Replace(b11, 'Q', " \U{2655} ");
    ReplaceConcat(a12, b12, 'q', " \U{265B} ");
    var a13, b13 := Replace(a12, 'q', " \U{265B} "), Replace(b12, 'q', " \U{265B} ");
    ReplaceConcat(a13, b13, 'K', " \U{2654} ");
    var a14, b14 := Replace(a13, 'K', " \U{2654} "), Replace(b13, 'K', " \U{2654} ");
    ReplaceConcat(a14, b14, 'k', " \U{265A} ");
  }

  /** Replacing a character that does not occur changes nothing. */
  lemma ReplaceAbsent(s: string, c: char, t: string)
    requires c !in s
    ensures Replace(s, c, t) == s
  {
  }

  /** Replacing in a one-character string. */
  lemma ReplaceSingle(x: char, c: char, t: string)
    ensures Replace([x], c, t) == if x == c then t else [x]
  {
    assert [x][1..] == [];
  }

  lemma RenderedLight(x: char)
    requires x == '!'
    ensures Rendered([x]) == Glyph(x)
  {
    hide Replace;
    ReplaceSingle(x, '!', "_");
    ReplaceSingle('_', '?', "_");
    ReplaceSingle('_', '_', BLANK_GLYPH);
    ReplaceAbsent(BLANK_GLYPH, 'P', " \U{2659} ");
    ReplaceAbsent(BLANK_GLYPH, 'p', " \U{265F} ");
    ReplaceAbsent(BLANK_GLYPH, 'N', " \U{2658} ");
    ReplaceAbsent(BLANK_GLYPH, 'n', " \U{265E} ");
    ReplaceAbsent(BLANK_GLYPH, 'B', " \U{2657} ");
    ReplaceAbsent(BLANK_GLYPH, 'b', " \U{265D} ");
    ReplaceAbsent(BLANK_GLYPH, 'R', " \U{2656} ");
    ReplaceAbsent(BLANK_GLYPH, 'r', " \U{265C} ");
    ReplaceAbsent(BLANK_GLYPH, 'Q', " \U{2655} ");
    ReplaceAbsent(BLANK_GLYPH, 'q', " \U{265B} ");
    ReplaceAbsent(BLANK_GLYPH, 'K', " \U{2654} ");
    ReplaceAbsent(BLANK_GLYPH, 'k', " \U{265A} ");
  }

  lemma RenderedDark(x: char)
    requires x == '?'
    ensures Rendered([x]) == Glyph(x)
  {
    hide Replace;
    ReplaceAbsent([x], '!', "_");
    ReplaceSingle(x, '?', "_");
    ReplaceSingle('_', '_', BLANK_GLYPH);
    ReplaceAbsent(BLANK_GLYPH, 'P', " \U{2659} ");
    ReplaceAbsent(BLANK_GLYPH, 'p', " \U{265F} ");
    ReplaceAbsent(BLANK_GLYPH, 'N', " \U{2658} ");
    ReplaceAbsent(BLANK_GLYPH, 'n', " \U{265E} ");
    ReplaceAbsent(BLANK_GLYPH, 'B', " \U{2657} ");
    ReplaceAbsent(BLANK_GLYPH, 'b', " \U{265D} ");
    ReplaceAbsent(BLANK_GLYPH, 'R', " \U{2656} ");
    ReplaceAbsent(BLANK_GLYPH, 'r', " \U{265C} ");
    ReplaceAbsent(BLANK_GLYPH, 'Q', " \U{2655} ");
    ReplaceAbsent(BLANK_GLYPH, 'q', " \U{265B} ");
    ReplaceAbsent(BLANK_GLYPH, 'K', " \U{2654} ");
    ReplaceAbsent(BLANK_GLYPH, 'k', " \U{265A} ");
  }

  lemma RenderedBlank(x: char)
    requires x == '_'
    ensures Rendered([x]) == Glyph(x)
  {
    hide Replace;
    ReplaceAbsent([x], '!', "_");
    ReplaceAbsent([x], '?', "_");
    ReplaceSingle(x, '_', BLANK_GLYPH);
    ReplaceAbsent(BLANK_GLYPH, 'P', " \U{2659} ");
    ReplaceAbsent(BLANK_GLYPH, 'p', " \U{265F} ");
    ReplaceAbsent(BLANK_GLYPH, 'N', " \U{2658} ");
    ReplaceAbsent(BLANK_GLYPH, 'n', " \U{265E} ");
    ReplaceAbsent(BLANK_GLYPH, 'B', " \U{2657} ");
    ReplaceAbsent(BLANK_GLYPH, 'b', " \U{265D} ");
    ReplaceAbsent(BLANK_GLYPH, 'R', " \U{2656} ");
    ReplaceAbsent(BLANK_GLYPH, 'r', " \U{265C} ");
    ReplaceAbsent(BLANK_GLYPH, 'Q', " \U{2655} ");
    ReplaceAbsent(BLANK_GLYPH, 'q', " \U{265B} ");
    ReplaceAbsent(BLANK_GLYPH, 'K', " \U{2654} ");
    ReplaceAbsent(BLANK_GLYPH, 'k', " \U{265A} ");
  }

  lemma RenderedWhitePawn(x: char)
    requires x == 'P'
    ensures Rendered([x]) == Glyph(x)
  {
    hide Replace;
    ReplaceAbsent([x], '!', "_");
    ReplaceAbsent([x], '?', "_");
    ReplaceAbsent([x], '_', BLANK_GLYPH);
    ReplaceSingle(x, 'P', " \U{2659} ");
    ReplaceAbsent(" \U{2659} ", 'p', " \U{265F} ");
    ReplaceAbsent(" \U{2659} ", 'N', " \U{2658} ");
    ReplaceAbsent(" \U{2659} ", 'n', " \U{265E} ");
    ReplaceAbsent(" \U{2659} ", 'B', " \U{2657} ");
    ReplaceAbsent(" \U{2659} ", 'b', " \U{265D} ");
    ReplaceAbsent(" \U{2659} ", 'R', " \U{2656} ");
    ReplaceAbsent(" \U{2659} ", 'r', " \U{265C} ");
    ReplaceAbsent(" \U{2659} ", 'Q', " \U{2655} ");
    ReplaceAbsent(" \U{2659} ", 'q', " \U{265B} ");
    ReplaceAbsent(" \U{2659} ", 'K', " \U{2654} ");
    ReplaceAbsent(" \U{2659} ", 'k', " \U{265A} ");
  }

  lemma RenderedBlackPawn(x: char)
    requires x == 'p'
    ensures Rendered([x]) == Glyph(x)
  {
    hide Replace;
    ReplaceAbsent([x], '!', "_");
    ReplaceAbsent([x], '?', "_");
    ReplaceAbsent([x], '_', BLANK_GLYPH);
    ReplaceAbsent([x], 'P', " \U{2659} ");
    ReplaceSingle(x, 'p', " \U{265F} ");
    ReplaceAbsent(" \U{265F} ", 'N', " \U{2658} ");
    ReplaceAbsent(" \U{265F} ", 'n', " \U{265E} ");
    ReplaceAbsent(" \U{265F} ", 'B', " \U{2657} ");
    ReplaceAbsent(" \U{265F} ", 'b', " \U{265D} ");
    ReplaceAbsent(" \U{265F} ", 'R', " \U{2656} ");
    ReplaceAbsent(" \U{265F} ", 'r', " \U{265C} ");
    ReplaceAbsent(" \U{265F} ", 'Q', " \U{2655} ");
    ReplaceAbsent(" \U{265F} ", 'q', " \U{265B} ");
    ReplaceAbsent(" \U{265F} ", 'K', " \U{2654} ");
    ReplaceAbsent(" \U{265F} ", 'k', " \U{265A} ");
  }

  lemma RenderedWhiteKnight(x: char)
    requires x == 'N'
    ensures Rendered([x]) == Glyph(x)
  {
    hide Replace;
    ReplaceAbsent([x], '!', "_");
    ReplaceAbsent([x], '?', "_");
    ReplaceAbsent([x], '_', BLANK_GLYPH);
    ReplaceAbsent([x], 'P', " \U{2659} ");
    ReplaceAbsent([x], 'p', " \U{265F} ");
    ReplaceSingle(x, 'N', " \U{2658} ");
    ReplaceAbsent(" \U{2658} ", 'n', " \U{265E} ");
    ReplaceAbsent(" \U{2658} ", 'B', " \U{2657} ");
    ReplaceAbsent(" \U{2658} ", 'b', " \U{265D} ");
    ReplaceAbsent(" \U{2658} ", 'R', " \U{2656} ");
    ReplaceAbsent(" \U{2658} ", 'r', " \U{265C} ");
    ReplaceAbsent(" \U{2658} ", 'Q', " \U{2655} ");
    ReplaceAbsent(" \U{2658} ", 'q', " \U{265B} ");
    ReplaceAbsent(" \U{2658} ", 'K', " \U{2654} ");
    ReplaceAbsent(" \U{2658} ", 'k', " \U{265A} ");
  }

  lemma RenderedBlackKnight(x: char)
    requires x == 'n'
    ensures Rendered([x]) == Glyph(x)
  {
    hide Replace;
    ReplaceAbsent([x], '!', "_");
    ReplaceAbsent([x], '?', "_");
    ReplaceAbsent([x], '_', BLANK_GLYPH);
    ReplaceAbsent([x], 'P', " \U{2659} ");
    ReplaceAbsent([x], 'p', " \U{265F} ");
    ReplaceAbsent([x], 'N', " \U{2658} ");
    ReplaceSingle(x, 'n', " \U{265E} ");
    ReplaceAbsent(" \U{265E} ", 'B', " \U{2657} ");
    ReplaceAbsent(" \U{265E} ", 'b', " \U{265D} ");
    ReplaceAbsent(" \U{265E} ", 'R', " \U{2656} ");
    ReplaceAbsent(" \U{265E} ", 'r', " \U{265C} ");
    ReplaceAbsent(" \U{265E} ", 'Q', " \U{2655} ");
    ReplaceAbsent(" \U{265E} ", 'q', " \U{265B} ");
    ReplaceAbsent(" \U{265E} ", 'K', " \U{2654} ");
    ReplaceAbsent(" \U{265E} ", 'k', " \U{265A} ");
  }

  lemma RenderedWhiteBishop(x: char)
    requires x == 'B'
    ensures Rendered([x]) == Glyph(x)
  {
    hide Replace;
    ReplaceAbsent([x], '!', "_");
    ReplaceAbsent([x], '?', "_");
    ReplaceAbsent([x], '_', BLANK_GLYPH);
    ReplaceAbsent([x], 'P', " \U{2659} ");
    ReplaceAbsent([x], 'p', " \U{265F} ");
    ReplaceAbsent([x], 'N', " \U{2658} ");
    ReplaceAbsent([x], 'n', " \U{265E} ");
    ReplaceSingle(x, 'B', " \U{2657} ");
    ReplaceAbsent(" \U{2657} ", 'b', " \U{265D} ");
    ReplaceAbsent(" \U{2657} ", 'R', " \U{2656} ");
    ReplaceAbsent(" \U{2657} ", 'r', " \U{265C} ");
    ReplaceAbsent(" \U{2657} ", 'Q', " \U{2655} ");
    ReplaceAbsent(" \U{2657} ", 'q', " \U{265B} ");
    ReplaceAbsent(" \U{2657} ", 'K', " \U{2654} ");
    ReplaceAbsent(" \U{2657} ", 'k', " \U{265A} ");
  }

  lemma RenderedBlackBishop(x: char)
    requires x == 'b'
    ensures Rendered([x]) == Glyph(x)
  {
    hide Replace;
    ReplaceAbsent([x], '!', "_");
    ReplaceAbsent([x], '?', "_");
    ReplaceAbsent([x], '_', BLANK_GLYPH);
    ReplaceAbsent([x], 'P', " \U{2659} ");
    ReplaceAbsent([x], 'p', " \U{265F} ");
    ReplaceAbsent([x], 'N', " \U{2658} ");
    ReplaceAbsent([x], 'n', " \U{265E} ");
    ReplaceAbsent([x], 'B', " \U{2657} ");
    ReplaceSingle(x, 'b', " \U{265D} ");
    ReplaceAbsent(" \U{265D} ", 'R', " \U{2656} ");
    ReplaceAbsent(" \U{265D} ", 'r', " \U{265C} ");
    ReplaceAbsent(" \U{265D} ", 'Q', " \U{2655} ");
    ReplaceAbsent(" \U{265D} ", 'q', " \U{265B} ");
    ReplaceAbsent(" \U{265D} ", 'K', " \U{2654} ");
    ReplaceAbsent(" \U{265D} ", 'k', " \U{265A} ");
  }

  lemma RenderedWhiteRook(x: char)
    requires x == 'R'
    ensures Rendered([x]) == Glyph(x)
  {
    hide Replace;
    ReplaceAbsent([x], '!', "_");
    ReplaceAbsent([x], '?', "_");
    ReplaceAbsent([x], '_', BLANK_GLYPH);
    ReplaceAbsent([x], 'P', " \U{2659} ");
    ReplaceAbsent([x], 'p', " \U{265F} ");
    ReplaceAbsent([x], 'N', " \U{2658} ");
    ReplaceAbsent([x], 'n', " \U{265E} ");
    ReplaceAbsent([x], 'B', " \U{2657} ");
    ReplaceAbsent([x], 'b', " \U{265D} ");
    ReplaceSingle(x, 'R', " \U{2656} ");
    ReplaceAbsent(" \U{2656} ", 'r', " \U{265C} ");
    ReplaceAbsent(" \U{2656} ", 'Q', " \U{2655} ");
    ReplaceAbsent(" \U{2656} ", 'q', " \U{265B} ");
    ReplaceAbsent(" \U{2656} ", 'K', " \U{2654} ");
    ReplaceAbsent(" \U{2656} ", 'k', " \U{265A} ");
  }

  lemma RenderedBlackRook(x: char)
    requires x == 'r'
    ensures Rendered([x]) == Glyph(x)
  {
    hide Replace;
    ReplaceAbsent([x], '!', "_");
    ReplaceAbsent([x], '?', "_");
    ReplaceAbsent([x], '_', BLANK_GLYPH);
    ReplaceAbsent([x], 'P', " \U{2659} ");
    ReplaceAbsent([x], 'p', " \U{265F} ");
    ReplaceAbsent([x], 'N', " \U{2658} ");
    ReplaceAbsent([x], 'n', " \U{265E} ");
    ReplaceAbsent([x], 'B', " \U{2657} ");
    ReplaceAbsent([x], 'b', " \U{265D} ");
    ReplaceAbsent([x], 'R', " \U{2656} ");
    ReplaceSingle(x, 'r', " \U{265C} ");
    ReplaceAbsent(" \U{265C} ", 'Q', " \U{2655} ");
    ReplaceAbsent(" \U{265C} ", 'q', " \U{265B} ");
    ReplaceAbsent(" \U{265C} ", 'K', " \U{2654} ");
    ReplaceAbsent(" \U{265C} ", 'k', " \U{265A} ");
  }

  lemma RenderedWhiteQueen(x: char)
    requires x == 'Q'
    ensures Rendered([x]) == Glyph(x)
  {
    hide Replace;
    ReplaceAbsent([x], '!', "_");
    ReplaceAbsent([x], '?', "_");
    ReplaceAbsent([x], '_', BLANK_GLYPH);
    ReplaceAbsent([x], 'P', " \U{2659} ");
    ReplaceAbsent([x], 'p', " \U{265F} ");
    ReplaceAbsent([x], 'N', " \U{2658} ");
    ReplaceAbsent([x], 'n', " \U{265E} ");
    ReplaceAbsent([x], 'B', " \U{2657} ");
    ReplaceAbsent([x], 'b', " \U{265D} ");
    ReplaceAbsent([x], 'R', " \U{2656} ");
    ReplaceAbsent([x], 'r', " \U{265C} ");
    ReplaceSingle(x, 'Q', " \U{2655} ");
    ReplaceAbsent(" \U{2655} ", 'q', " \U{265B} ");
    ReplaceAbsent(" \U{2655} ", 'K', " \U{2654} ");
    ReplaceAbsent(" \U{2655} ", 'k', " \U{265A} ");
  }

  lemma RenderedBlackQueen(x: char)
    requires x == 'q'
    ensures Rendered([x]) == Glyph(x)
  {
    hide Replace;
    ReplaceAbsent([x], '!', "_");
    ReplaceAbsent([x], '?', "_");
    ReplaceAbsent([x], '_', BLANK_GLYPH);
    ReplaceAbsent([x], 'P', " \U{2659} ");
    ReplaceAbsent([x], 'p', " \U{265F} ");
    ReplaceAbsent([x], 'N', " \U{2658} ");
    ReplaceAbsent([x], 'n', " \U{265E} ");
    ReplaceAbsent([x], 'B', " \U{2657} ");
    ReplaceAbsent([x], 'b', " \U{265D} ");
    ReplaceAbsent([x], 'R', " \U{2656} ");
    ReplaceAbsent([x], 'r', " \U{265C} ");
    ReplaceAbsent([x], 'Q', " \U{2655} ");
    ReplaceSingle(x, 'q', " \U{265B} ");
    ReplaceAbsent(" \U{265B} ", 'K', " \U{2654} ");
    ReplaceAbsent(" \U{265B} ", 'k', " \U{265A} ");
  }

  lemma RenderedWhiteKing(x: char)
    requires x == 'K'
    ensures Rendered([x]) == Glyph(x)
  {
    hide Replace;
    ReplaceAbsent([x], '!', "_");
    ReplaceAbsent([x], '?', "_");
    ReplaceAbsent([x], '_', BLANK_GLYPH);
    ReplaceAbsent([x], 'P', " \U{2659} ");
    ReplaceAbsent([x], 'p', " \U{265F} ");
    ReplaceAbsent([x], 'N', " \U{2658} ");
    ReplaceAbsent([x], 'n', " \U{265E} ");
    ReplaceAbsent([x], 'B', " \U{2657} ");
    ReplaceAbsent([x], 'b', " \U{265D} ");
    ReplaceAbsent([x], 'R', " \U{2656} ");
    ReplaceAbsent([x], 'r', " \U{265C} ");
    ReplaceAbsent([x], 'Q', " \U{2655} ");
    ReplaceAbsent([x], 'q', " \U{265B} ");
    ReplaceSingle(x, 'K', " \U{2654} ");
    ReplaceAbsent(" \U{2654} ", 'k', " \U{265A} ");
  }

  lemma RenderedBlackKing(x: char)
    requires x == 'k'
    ensures Rendered([x]) == Glyph(x)
  {
    hide Replace;
    ReplaceAbsent([x], '!', "_");
    ReplaceAbsent([x], '?', "_");
    ReplaceAbsent([x], '_', BLANK_GLYPH);
    ReplaceAbsent([x], 'P', " \U{2659} ");
    ReplaceAbsent([x], 'p', " \U{265F} ");
    ReplaceAbsent([x], 'N', " \U{2658} ");
    ReplaceAbsent([x], 'n', " \U{265E} ");
    ReplaceAbsent([x], 'B', " \U{2657} ");
    ReplaceAbsent([x], 'b', " \U{265D} ");
    ReplaceAbsent([x], 'R', " \U{2656} ");
    ReplaceAbsent([x], 'r', " \U{265C} ");
    ReplaceAbsent([x], 'Q', " \U{2655} ");
    ReplaceAbsent([x], 'q', " \U{265B} ");
    ReplaceAbsent([x], 'K', " \U{2654} ");
    ReplaceSingle(x, 'k', " \U{265A} ");
  }

  lemma RenderedOther(x: char)
    requires x !in "!?_PpNnBbRrQqKk"
    ensures Rendered([x]) == Glyph(x)
  {
    hide Replace;
    ReplaceAbsent([x], '!', "_");
    ReplaceAbsent([x], '?', "_");
    ReplaceAbsent([x], '_', BLANK_GLYPH);
    ReplaceAbsent([x], 'P', " \U{2659} ");
    ReplaceAbsent([x], 'p', " \U{265F} ");
    ReplaceAbsent([x], 'N', " \U{2658} ");
    ReplaceAbsent([x], 'n', " \U{265E} ");
    ReplaceAbsent([x], 'B', " \U{2657} ");
    ReplaceAbsent([x], 'b', " \U{265D} ");
    ReplaceAbsent([x], 'R', " \U{2656} ");
    ReplaceAbsent([x], 'r', " \U{265C} ");
    ReplaceAbsent([x], 'Q', " \U{2655} ");
    ReplaceAbsent([x], 'q', " \U{265B} ");
    ReplaceAbsent([x], 'K', " \U{2654} ");
    ReplaceAbsent([x], 'k', " \U{265A} ");
  }

  /** The fifteen replacements turn one character into its glyph. */
  lemma RenderedChar(x: char)
    ensures Rendered([x]) == Glyph(x)
  {
    if x == '!' {
      RenderedLight(x);
    } else if x == '?' {
      RenderedDark(x);
    } else if x == '_' {
      RenderedBlank(x);
    } else if x == 'P' {
      RenderedWhitePawn(x);
    } else if x == 'p' {
      RenderedBlackPawn(x);
    } else if x == 'N' {
      RenderedWhiteKnight(x);
    } else if x == 'n' {
      RenderedBlackKnight(x);
    } else if x == 'B' {
      RenderedWhiteBishop(x);
    } else if x == 'b' {
      RenderedBlackBishop(x);
    } else if x == 'R' {
      RenderedWhiteRook(x);
    } else if x == 'r' {
      RenderedBlackRook(x);
    } else if x == 'Q' {
      RenderedWhiteQueen(x);
    } else if x == 'q' {
      RenderedBlackQueen(x);
    } else if x == 'K' {
      RenderedWhiteKing(x);
    } else if x == 'k' {
      RenderedBlackKing(x);
    } else {
      RenderedOther(x);
    }
  }

  /** The fifteen replacements of `get_board` are the glyph map. */
  lemma {:induction false} RenderedGlyphs(s: string)
    ensures Rendered(s) == Glyphs(s)
  {
    if s != [] {
      assert s == [s[0]] + s[1..];
      RenderedConcat([s[0]], s[1..]);
      RenderedChar(s[0]);
      RenderedGlyphs(s[1..]);
    }
  }

  /** The column letters framing the board. */
  const FILES_LINE: string := "    A  B  C  D  E  F  G  H\n"

  /** The rule between the column letters and the board. */
  const RULE_LINE: string := "    -----------------------\n"

  /**
   * `get_board`: the empty board with the twelve piece boards painted in the order white
   * pawns, black pawns, knights, bishops, rooks, queens, kings, every character swapped
   * for its glyph, and the column letters and a rule above and below.
   */
  method GetBoard(b: PiecePosition) returns (board: string)
    requires Shaped(b)
    ensures board == FILES_LINE + RULE_LINE + Glyphs(PaintStage(b, 12)) + RULE_LINE + FILES_LINE
  {
    hide Replace, Glyphs, Painted, PaintedFrom;
    board := GetEmptyBoard();
    assert board == PaintStage(b, 0);
    hide PaintStage, EmptyBoard;
    board := PaintStep(b, board, 0);
    board := PaintStep(b, board, 1);
    board := PaintStep(b, board, 2);
    board := PaintStep(b, board, 3);
    board := PaintStep(b, board, 4);
    board := PaintStep(b, board, 5);
    board := PaintStep(b, board, 6);
    board := PaintStep(b, board, 7);
    board := PaintStep(b, board, 8);
    board := PaintStep(b, board, 9);
    board := PaintStep(b, board, 10);
    board := PaintStep(b, board, 11);
    ghost var painted := board;
    board := Replace(board, '!', "_");
    board := Replace(board, '?', "_");
    board := Replace(board, '_', BLANK_GLYPH);
    board := Replace(board, 'P', " \U{2659} ");
    board := Replace(board, 'p', " \U{265F} ");
    board := Replace(board, 'N', " \U{2658} ");
    board := Replace(board, 'n', " \U{265E} ");
    board := Replace(board, 'B', " \U{2657} ");
    board := Replace(board, 'b', " \U{265D} ");
    board := Replace(board, 'R', " \U{2656} ");
    board := Replace(board, 'r', " \U{265C} ");
    board := Replace(board, 'Q', " \U{2655} ");
    board := Replace(board, 'q', " \U{265B} ");
    board := Replace(board, 'K', " \U{2654} ");
    board := Replace(board, 'k', " \U{265A} ");
    assert board == Rendered(painted);
    RenderedGlyphs(painted);
    hide Rendered;
    ghost var glyphs := board;
    board := RULE_LINE + board;
    board := FILES_LINE + board;
    board := board + RULE_LINE;
    board := board + FILES_LINE;
    assert FILES_LINE + (RULE_LINE + glyphs) == FILES_LINE + RULE_LINE + glyphs;
  }

  /** One `display_pieces` call of `get_board`: painting step `i`. */
  method PaintStep(b: PiecePosition, board: string, i: nat) returns (r: string)
    requires Shaped(b) && i < 12 && board == PaintStage(b, i)
    ensures r == PaintStage(b, i + 1)
  {
    AllCellsFit(b.pieces[StageSide(i)][StagePiece(i)], |board|);
    r := DisplayPieces(b.pieces[StageSide(i)][StagePiece(i)], board, Letter(StageSide(i), StagePiece(i)));
  }

  // ---------------------------------------------------------------------------------
  // get_castling_info
  // ---------------------------------------------------------------------------------

  /** `s` when the flag is set, nothing otherwise. */
  function Part(flag: bool, s: string): (r: string)
  {
    if flag then s else ""
  }

  /** A character is in a part exactly when the flag is set and the character is in `s`. */
  lemma PartHas(flag: bool, s: string)
    ensures forall x :: x in Part(flag, s) <==> flag && x in s
  {
  }

  /** The castling line for four rights given as flags, and a flag for none at all. */
  function InfoText(wq: bool, wk: bool, bq: bool, bk: bool, none: bool): (message: string)
  {
    "Castling: " + Part(wq, "Q ") + Part(wk, "K ") + Part(bq, "q ") + Part(bk, "k ") + Part(none, "-")
  }

  /** The castling line: "Castling: ", then "Q ", "K ", "q ", "k " for the rights held, then "-" if none. */
  function CastlingInfo(c: bv8): (message: string)
  {
    InfoText(c & WHITE_QUEEN_SIDE != 0, c & WHITE_KING_SIDE != 0, c & BLACK_QUEEN_SIDE != 0,
             c & BLACK_KING_SIDE != 0, c | NO_CASTLING == 0)
  }

  /** `get_castling_info`: the line built up by appending to "Castling: ". */
  method GetCastlingInfo(c: bv8) returns (message: string)
    ensures message == CastlingInfo(c)
  {
    hide Part;
    message := "Castling: ";
    ghost var m0 := message;
    if c & WHITE_QUEEN_SIDE != 0 {
      message := message + "Q ";
    }
    AppendPart(m0, c & WHITE_QUEEN_SIDE != 0, "Q ", message);
    ghost var m1 := message;
    if c & WHITE_KING_SIDE != 0 {
      message := message + "K ";
    }
    AppendPart(m1, c & WHITE_KING_SIDE != 0, "K ", message);
    ghost var m2 := message;
    if c & BLACK_QUEEN_SIDE != 0 {
      message := message + "q ";
    }
    AppendPart(m2, c & BLACK_QUEEN_SIDE != 0, "q ", message);
    ghost var m3 := message;
    if c & BLACK_KING_SIDE != 0 {
      message := message + "k ";
    }
    AppendPart(m3, c & BLACK_KING_SIDE != 0, "k ", message);
    ghost var m4 := message;
    if c | NO_CASTLING == 0 {
      message := message + "-";
    }
    AppendPart(m4, c | NO_CASTLING == 0, "-", message);
  }

  /** Appending `s` only when the flag is set appends the part. */
  lemma AppendPart(m: string, flag: bool, s: string, r: string)
    requires r == if flag then m + s else m
    ensures r == m + Part(flag, s)
  {
  }

  /** The castling line starts with "Castling: ", which holds no castling letter and no '-'. */
  lemma InfoTextPrefix(wq: bool, wk: bool, bq: bool, bk: bool, none: bool)
    ensures |InfoText(wq, wk, bq, bk, none)| >= 10 && InfoText(wq, wk, bq, bk, none)[..10] == "Castling: "
    ensures forall x | x in "QKqk-" :: x !in InfoText(wq, wk, bq, bk, none)[..10]
  {
    hide Part;
    var pre := "Castling: ";
    assert InfoText(wq, wk, bq, bk, none)[..10] == pre;
  }

  /** The parts after "Castling: ", as one string. */
  function InfoRest(wq: bool, wk: bool, bq: bool, bk: bool, none: bool): (rest: string)
  {
    Part(wq, "Q ") + Part(wk, "K ") + Part(bq, "q ") + Part(bk, "k ") + Part(none, "-")
  }

  /** The line is "Castling: " followed by its parts. */
  lemma InfoTextSplit(wq: bool, wk: bool, bq: bool, bk: bool, none: bool)
    ensures InfoText(wq, wk, bq, bk, none) == InfoText(wq, wk, bq, bk, none)[..10] + InfoRest(wq, wk, bq, bk, none)
  {
    hide Part;
  }

  /** Each letter appears among the parts exactly when its flag is set. */
  lemma InfoRestLetters(wq: bool, wk: bool, bq: bool, bk: bool, none: bool)
    ensures ('Q' in InfoRest(wq, wk, bq, bk, none) <==> wq) && ('K' in InfoRest(wq, wk, bq, bk, none) <==> wk)
    ensures ('q' in InfoRest(wq, wk, bq, bk, none) <==> bq) && ('k' in InfoRest(wq, wk, bq, bk, none) <==> bk)
    ensures '-' in InfoRest(wq, wk, bq, bk, none) <==> none
  {
    hide Part;
    PartHas(wq, "Q ");
    PartHas(wk, "K ");
    PartHas(bq, "q ");
    PartHas(bk, "k ");
    PartHas(none, "-");
  }

  /** Each letter of the castling line appears exactly when its flag is set. */
  lemma InfoTextLetters(wq: bool, wk: bool, bq: bool, bk: bool, none: bool)
    ensures |InfoText(wq, wk, bq, bk, none)| >= 10 && InfoText(wq, wk, bq, bk, none)[..10] == "Castling: "
    ensures ('Q' in InfoText(wq, wk, bq, bk, none) <==> wq) && ('K' in InfoText(wq, wk, bq, bk, none) <==> wk)
    ensures ('q' in InfoText(wq, wk, bq, bk, none) <==> bq) && ('k' in InfoText(wq, wk, bq, bk, none) <==> bk)
    ensures '-' in InfoText(wq, wk, bq, bk, none) <==> none
  {
    InfoTextPrefix(wq, wk, bq, bk, none);
    InfoTextSplit(wq, wk, bq, bk, none);
    InfoRestLetters(wq, wk, bq, bk, none);
    var pre := InfoText(wq, wk, bq, bk, none)[..10];
    var rest := InfoRest(wq, wk, bq, bk, none);
    hide InfoText, InfoRest;
    assert forall x :: x in pre + rest <==> x in pre || x in rest;
    assert 'Q' !in pre && 'K' !in pre && 'q' !in pre && 'k' !in pre && '-' !in pre;
  }

  /**
   * The castling line starts "Castling: ", the FEN castling reader takes back from it
   * exactly the four rights of `c`, and it holds a '-' exactly when no right is held.
   */
  lemma CastlingInfoReadsBack(c: bv8)
    ensures |CastlingInfo(c)| >= 10 && CastlingInfo(c)[..10] == "Castling: "
    ensures Fen.CastlingOf(CastlingInfo(c)) == c & ALL
    ensures '-' in CastlingInfo(c) <==> c == 0
  {
    hide Fen.CastlingOf;
    var wq, wk, bq, bk := c & WHITE_QUEEN_SIDE != 0, c & WHITE_KING_SIDE != 0, c & BLACK_QUEEN_SIDE != 0, c & BLACK_KING_SIDE != 0;
    var none := c | NO_CASTLING == 0;
    assert none <==> c == 0;
    InfoTextLetters(wq, wk, bq, bk, none);
    var m := InfoText(wq, wk, bq, bk, none);
    assert CastlingInfo(c) == m;
    hide InfoText, CastlingInfo;
    CastlingBits(Fen.CastlingOf(m), c);
  }

  /** Two castling values with the same four flags, the first holding nothing else. */
  lemma CastlingBits(r: bv8, c: bv8)
    requires r & !ALL == 0
    requires (r & WHITE_QUEEN_SIDE != 0 <==> c & WHITE_QUEEN_SIDE != 0) && (r & WHITE_KING_SIDE != 0 <==> c & WHITE_KING_SIDE != 0)
    requires (r & BLACK_QUEEN_SIDE != 0 <==> c & BLACK_QUEEN_SIDE != 0) && (r & BLACK_KING_SIDE != 0 <==> c & BLACK_KING_SIDE != 0)
    ensures r == c & ALL
  {
  }
}
