/**
 * The FEN reader of board/fen.rs (Forsyth-Edwards Notation, section 16.1 of the PGN
 * Standard): piece placement, side to move, castling rights, en-passant square, the
 * halfmove clock and the fullmove number, read field by field from the six
 * space-separated fields.
 */
module Fen {
  import opened Wrappers
  import opened Bits
  import opened Models
  import opened Placement
  import opened Notation
  import opened ZobristInit
  import opened Game
  import Options

  const START_POS := "rnbqkbnr/pppppppp/8/8/8/8/PPPPPPPP/RNBQKBNR w KQkq - 0 1"

  // ---- Piece placement ----

  /** The side and piece a placement letter stands for: upper case white, lower case black. */
  function PieceOfLetter(c: char): (r: Option<(nat, nat)>)
    ensures r.Some? ==> r.value.0 < 2 && r.value.1 < 6
    ensures r.Some? <==> c in "rRbBnNqQkKpP"
  {
    match c
    case 'r' => Some((BLACK, ROOK))
    case 'R' => Some((WHITE, ROOK))
    case 'b' => Some((BLACK, BISHOP))
    case 'B' => Some((WHITE, BISHOP))
    case 'n' => Some((BLACK, KNIGHT))
    case 'N' => Some((WHITE, KNIGHT))
    case 'q' => Some((BLACK, QUEEN))
    case 'Q' => Some((WHITE, QUEEN))
    case 'k' => Some((BLACK, KING))
    case 'K' => Some((WHITE, KING))
    case 'p' => Some((BLACK, PAWN))
    case 'P' => Some((WHITE, PAWN))
    case _ => None
  }

  /**
   * The square index after reading `s`: it starts at 56 (a8), a piece letter moves it
   * one square on, a digit skips that many squares, and '/' goes back 16 (from just
   * past the end of a rank to the start of the rank below). Anything else is ignored.
   */
  function PlacementIndex(s: string): int
  {
    if s == [] then 56
    else
      var i := PlacementIndex(s[..|s| - 1]);
      var c := s[|s| - 1];
      if c == '/' then i - 16
      else if PieceOfLetter(c).Some? then i + 1
      else if Options.IsDigit(c) then i + (c as int - '0' as int)
      else i
  }

  /** Every piece letter falls on a square of the board, as `1u64 << i` needs. */
  predicate PlacementOk(s: string)
  {
    forall k | 0 <= k < |s| :: PieceOfLetter(s[k]).Some? ==> 0 <= PlacementIndex(s[..k]) < 64
  }

  lemma PlacementOkPrefix(s: string, n: nat)
    requires PlacementOk(s) && n <= |s|
    ensures PlacementOk(s[..n])
  {
    forall k | 0 <= k < n
      ensures s[..n][..k] == s[..k]
    {
    }
  }

  /** `set_piece`: `pos` goes on the side board and on the piece board. */
  function SetPiece(b: PiecePosition, side: nat, piece: nat, pos: bv64): (r: PiecePosition)
    requires Shaped(b) && side < 2 && piece < 6
    ensures Shaped(r)
  {
    Added(WithSide(b, side, Put(b.sidePieces[side], pos)), side, piece, pos)
  }

  /** The board after the placement field `s` is read onto `b`, one character at a time. */
  function PlacementBoard(b: PiecePosition, s: string): (r: PiecePosition)
    requires Shaped(b) && PlacementOk(s)
    ensures Shaped(r)
  {
    if s == [] then b
    else
      var prev := s[..|s| - 1];
      PlacementOkPrefix(s, |s| - 1);
      var before := PlacementBoard(b, prev);
      match PieceOfLetter(s[|s| - 1])
      case Some((side, piece)) =>
        assert s[..|s| - 1] == prev;
        SetPiece(before, side, piece, Bit(PlacementIndex(prev)))
      case None => before
  }

  /** `a | b`, kept apart so the proofs about unions can treat it as an operation. */
  function Or(a: bv64, b: bv64): bv64
  {
    a | b
  }

  /** The union of a side's six piece boards. */
  function Union(ps: seq<bv64>): bv64
  {
    if ps == [] then 0 else Or(ps[0], Union(ps[1..]))
  }

  /** Each side board is the union of that side's piece boards. */
  predicate SidesAreUnions(b: PiecePosition)
    requires Shaped(b)
  {
    b.sidePieces[WHITE] == Union(b.pieces[WHITE]) && b.sidePieces[BLACK] == Union(b.pieces[BLACK])
  }

  /** Adding a square to one piece board adds it to the union. */
  lemma {:induction false} UnionPut(ps: seq<bv64>, k: nat, x: bv64)
    requires k < |ps|
    ensures Union(ps[k := Or(ps[k], x)]) == Or(Union(ps), x)
  {
    hide Or;
    var qs := ps[k := Or(ps[k], x)];
    var a := ps[0];
    var u := Union(ps[1..]);
    if k == 0 {
      assert qs[1..] == ps[1..];
      OrMoved(a, u, x);
    } else {
      var tail := ps[1..];
      assert qs[1..] == tail[k - 1 := Or(tail[k - 1], x)];
      UnionPut(tail, k - 1, x);
      OrGrouped(a, u, x);
    }
  }

  lemma OrMoved(a: bv64, b: bv64, x: bv64)
    ensures Or(Or(a, x), b) == Or(Or(a, b), x)
  {
    hide Or;
    OrGrouped(a, x, b);
    OrSwap(x, b);
    OrGrouped(a, b, x);
  }

  lemma OrGrouped(a: bv64, b: bv64, x: bv64)
    ensures Or(a, Or(b, x)) == Or(Or(a, b), x)
  {
  }

  lemma OrSwap(a: bv64, b: bv64)
    ensures Or(a, b) == Or(b, a)
  {
  }

  lemma PutOr(x: bv64, y: bv64)
    ensures Put(x, y) == Or(x, y)
  {
  }

  /** `set_piece` keeps every side board the union of its piece boards. */
  lemma SetPieceUnions(b: PiecePosition, side: nat, piece: nat, pos: bv64)
    requires Shaped(b) && side < 2 && piece < 6 && SidesAreUnions(b)
    ensures SidesAreUnions(SetPiece(b, side, piece, pos))
  {
    hide Put, Or;
    var ps := b.pieces[side];
    var w := WithSide(b, side, Put(b.sidePieces[side], pos));
    var r := WithPiece(w, side, piece, Put(ps[piece], pos));
    assert SetPiece(b, side, piece, pos) == r;
    PutOr(b.sidePieces[side], pos);
    PutOr(ps[piece], pos);
    hide SetPiece, Added;
    UnionsKept(b, r, side, piece, pos);
  }

  lemma UnionsKept(b: PiecePosition, r: PiecePosition, side: nat, piece: nat, pos: bv64)
    requires Shaped(b) && Shaped(r) && side < 2 && piece < 6 && SidesAreUnions(b)
    requires r.pieces[side] == b.pieces[side][piece := Or(b.pieces[side][piece], pos)]
    requires r.sidePieces[side] == Or(b.sidePieces[side], pos)
    requires r.pieces[1 - side] == b.pieces[1 - side] && r.sidePieces[1 - side] == b.sidePieces[1 - side]
    ensures SidesAreUnions(r)
  {
    hide Or;
    UnionPut(b.pieces[side], piece, pos);
    assert r.sidePieces[side] == Union(r.pieces[side]);
    assert r.sidePieces[1 - side] == Union(r.pieces[1 - side]);
    if side == WHITE {
      assert SidesAreUnions(r);
    } else {
      assert SidesAreUnions(r);
    }
  }

  /** Reading a placement keeps every side board the union of its piece boards. */
  lemma {:induction false} PlacementUnions(b: PiecePosition, s: string)
    requires Shaped(b) && PlacementOk(s) && SidesAreUnions(b)
    ensures SidesAreUnions(PlacementBoard(b, s))
  {
    if s != [] {
      var prev := s[..|s| - 1];
      PlacementOkPrefix(s, |s| - 1);
      PlacementUnions(b, prev);
      match PieceOfLetter(s[|s| - 1])
      case Some((side, piece)) =>
        SetPieceUnions(PlacementBoard(b, prev), side, piece, Bit(PlacementIndex(prev)));
      case None =>
    }
  }

  /**
   * `parse_piece_position`: walks the placement field with the index `i` from 56; each
   * of the twelve piece letters calls `set_piece` on square `i` and moves on, a digit
   * skips squares, '/' drops to the rank below.
   */
  method ParsePiecePosition(field: string, position: Position)
    requires position.Valid() && PlacementOk(field)
    modifies position
    ensures position.Valid()
    ensures position.Value() == old(position.Value()).(board := PlacementBoard(old(position.board), field))
  {
    var i: int := 64 - 8;
    var k := 0;
    while k < |field|
      invariant 0 <= k <= |field| && position.Valid()
      invariant i == PlacementIndex(field[..k])
      invariant PlacementOk(field[..k])
      invariant position.Value() == old(position.Value()).(board := PlacementBoard(old(position.board), field[..k]))
    {
      var c := field[k];
      assert field[..k + 1][..k] == field[..k];
      assert field[..k + 1][k] == c;
      PlacementOkPrefix(field, k + 1);
      var letter := PieceOfLetter(c);
      if c == '/' {
        i := i - 16;
      } else if letter.Some? {
        position.SetPiece(Bit(i), letter.value.0, letter.value.1);
        i := i + 1;
      } else if Options.IsDigit(c) {
        i := i + (c as int - '0' as int);
      }
      k := k + 1;
    }
    assert field[..k] == field;
  }

  // ---- Side, castling, en passant ----

  /** The side field: each character in turn sets white for 'w' and black otherwise, so the last one decides. */
  function SideOf(s: string): (side: nat)
    ensures side < 2
    ensures |s| > 0 ==> (side == WHITE <==> s[|s| - 1] == 'w')
  {
    if s == [] then WHITE else if s[|s| - 1] == 'w' then WHITE else BLACK
  }

  /** The castling flag of a letter: Q, K, q, k; none for any other character. */
  function CastlingFlag(c: char): (f: bv8)
  {
    if c == 'Q' then WHITE_QUEEN_SIDE
    else if c == 'K' then WHITE_KING_SIDE
    else if c == 'q' then BLACK_QUEEN_SIDE
    else if c == 'k' then BLACK_KING_SIDE
    else NO_CASTLING
  }

  /** The castling field: the flags of its letters, OR-ed together; other characters (such as '-') are ignored. */
  function CastlingOf(s: string): (c: bv8)
    ensures c & !ALL == 0
    ensures (c & WHITE_QUEEN_SIDE != 0 <==> 'Q' in s) && (c & WHITE_KING_SIDE != 0 <==> 'K' in s)
    ensures (c & BLACK_QUEEN_SIDE != 0 <==> 'q' in s) && (c & BLACK_KING_SIDE != 0 <==> 'k' in s)
  {
    if s == [] then NO_CASTLING
    else
      var prev := s[..|s| - 1];
      assert s == prev + [s[|s| - 1]];
      CastlingOf(prev) | CastlingFlag(s[|s| - 1])
  }

  /** A castling value is below 16, so it indexes the castling keys. */
  lemma CastlingBelow16(s: string)
    ensures CastlingOf(s) < 16
  {
    var c := CastlingOf(s);
    assert c & !ALL == 0;
  }

  /** The en-passant field: NONE for "-", otherwise the square it names. */
  function EnPassantOf(s: string): (sq: bv64)
    requires s != "-" ==> SquareNameOk(s)
    ensures s == "-" <==> sq == NONE
  {
    if s == "-" then NONE else AlgebraicToSquare(s)
  }

  // ---- The whole record ----

  /**
   * What `fen_to_position` needs not to panic: six fields, a placement on the board, an
   * en-passant square it can read, two numbers that parse, a fullmove number from 1
   * whose half-move count stays within `usize`.
   */
  predicate FenOk(fen: string)
  {
    var f := Options.Split(fen);
    && |f| >= 6
    && PlacementOk(f[0])
    && (f[3] != "-" ==> SquareNameOk(f[3]))
    && Options.ParseNat(f[4]).Some?
    && Options.ParseNat(f[5]).Some? && Options.ParseNat(f[5]).value >= 1
    && (Options.ParseNat(f[5]).value - 1) * 2 <= Options.USIZE_MAX
  }

  /** The position a FEN record describes, before its hash is computed. */
  function FenFields(fen: string, keys: ZobristHashes): (p: PositionValue)
    requires FenOk(fen) && KeysShaped(keys)
    ensures WellFormed(p)
  {
    var f := Options.Split(fen);
    var side := SideOf(f[1]);
    var castling := CastlingOf(f[2]);
    CastlingBelow16(f[2]);
    var since := Options.ParseNat(f[4]).value;
    var fullMoves := Options.ParseNat(f[5]).value;
    PositionValue(
      PlacementBoard(EMPTY_BOARD, f[0]),
      side,
      (fullMoves - 1) * 2 + (if side == BLACK then 1 else 0),
      BoardState(since, since, castling, EnPassantOf(f[3])),
      [], 0, [], keys)
  }

  /** The position a FEN record describes, with its hash computed from scratch. */
  function FenValue(fen: string, keys: ZobristHashes): (p: PositionValue)
    requires FenOk(fen) && KeysShaped(keys)
    ensures WellFormed(p) && p == FenFields(fen, keys).(zobrist := ZobristKey(FenFields(fen, keys)))
  {
    var p := FenFields(fen, keys);
    p.(zobrist := ZobristKey(p))
  }

  /**
   * What a read position satisfies: no history, both counters equal to the halfmove
   * clock, the half-move number from the fullmove number and the side, castling within
   * the four rights, each side board the union of its piece boards, and the hash equal
   * to the one `init_zobrist_key` computes.
   */
  lemma FenFacts(fen: string, keys: ZobristHashes)
    requires FenOk(fen) && KeysShaped(keys)
    ensures var p := FenValue(fen, keys); var f := Options.Split(fen);
      && p.statePrev == [] && p.zobristPrev == []
      && p.state.sinceLastCapture == p.state.sinceLastCaptureOrPawnMovement == Options.ParseNat(f[4]).value
      && p.halfMoveNumber == (Options.ParseNat(f[5]).value - 1) * 2 + (if p.sideToMove == BLACK then 1 else 0)
      && p.state.castling & !ALL == 0
      && SidesAreUnions(p.board)
      && p.zobrist == ZobristKey(p)
  {
    var f := Options.Split(fen);
    assert SidesAreUnions(EMPTY_BOARD) by {
      assert Union(EMPTY_BOARD.pieces[WHITE]) == 0 by { UnionZero(EMPTY_BOARD.pieces[WHITE]); }
      assert Union(EMPTY_BOARD.pieces[BLACK]) == 0 by { UnionZero(EMPTY_BOARD.pieces[BLACK]); }
    }
    PlacementUnions(EMPTY_BOARD, f[0]);
  }

  lemma {:induction false} UnionZero(ps: seq<bv64>)
    requires forall k | 0 <= k < |ps| :: ps[k] == 0
    ensures Union(ps) == 0
  {
    if ps != [] {
      UnionZero(ps[1..]);
    }
  }

  /** The side loop of `fen_to_position`: each character sets the side to move, white for 'w'. */
  method ParseSide(field: string, position: Position)
    requires position.Valid()
    modifies position
    ensures position.Valid()
    ensures position.Value() == old(position.Value()).(sideToMove := if field == [] then old(position.sideToMove) else SideOf(field))
  {
    var k := 0;
    while k < |field|
      invariant 0 <= k <= |field| && position.Valid()
      invariant position.Value() == old(position.Value()).(sideToMove := if k == 0 then old(position.sideToMove) else SideOf(field[..k]))
    {
      assert field[..k + 1][k] == field[k];
      position.sideToMove := if field[k] == 'w' then WHITE else BLACK;
      k := k + 1;
    }
    assert field[..k] == field;
  }

  /** The castling loop of `fen_to_position`: the flag of each of Q, K, q, k OR-ed in. */
  method ParseCastling(field: string) returns (castling: bv8)
    ensures castling == CastlingOf(field)
  {
    castling := NO_CASTLING;
    var k := 0;
    while k < |field|
      invariant 0 <= k <= |field|
      invariant castling == CastlingOf(field[..k])
    {
      assert field[..k + 1][..k] == field[..k];
      var c := field[k];
      if c == 'Q' {
        castling := castling | WHITE_QUEEN_SIDE;
      } else if c == 'K' {
        castling := castling | WHITE_KING_SIDE;
      } else if c == 'q' {
        castling := castling | BLACK_QUEEN_SIDE;
      } else if c == 'k' {
        castling := castling | BLACK_KING_SIDE;
      }
      k := k + 1;
    }
    assert field[..k] == field;
  }

  /** The values `fen_to_position` assigns field by field make up `FenFields`. */
  lemma FieldsRead(fen: string, keys: ZobristHashes, fields: seq<string>, board: PiecePosition, side: nat,
                   half: nat, since: nat, castling: bv8, enPassant: bv64)
    requires FenOk(fen) && KeysShaped(keys) && fields == Options.Split(fen)
    requires board == PlacementBoard(EMPTY_BOARD, fields[0]) && side == SideOf(fields[1])
    requires half == (Options.ParseNat(fields[5]).value - 1) * 2 + (if side == BLACK then 1 else 0)
    requires since == Options.ParseNat(fields[4]).value
    requires castling == CastlingOf(fields[2]) && enPassant == EnPassantOf(fields[3])
    ensures PositionValue(board, side, half, BoardState(since, since, castling, enPassant), [], 0, [], keys)
            == FenFields(fen, keys)
  {
  }

  lemma HashRead(fen: string, keys: ZobristHashes, read: PositionValue, hash: bv64)
    requires FenOk(fen) && KeysShaped(keys) && read == FenFields(fen, keys) && hash == ZobristKey(read)
    ensures read.(zobrist := hash) == FenValue(fen, keys)
  {
  }

  /**
   * The first half of `fen_to_position`: an empty position with the placement field
   * read onto it and the side-to-move field read after it.
   */
  method ReadPlacementAndSide(fields: seq<string>, keys: ZobristHashes) returns (position: Position)
    requires |fields| >= 2 && PlacementOk(fields[0]) && KeysShaped(keys)
    ensures fresh(position) && position.Valid()
    ensures position.Value() == PositionValue(PlacementBoard(EMPTY_BOARD, fields[0]), SideOf(fields[1]), 0, EMPTY_STATE, [], 0, [], keys)
  {
    position := new Position(keys);
    ParsePiecePosition(fields[0], position);
    ParseSide(fields[1], position);
  }

  /**
   * `fen_to_position`: an empty position, the placement read onto it, then the side,
   * castling, en-passant, clock and move-number fields, and finally the hash from scratch.
   */
  method FenToPosition(fen: string, keys: ZobristHashes) returns (position: Position)
    requires FenOk(fen) && KeysShaped(keys)
    ensures fresh(position) && position.Valid()
    ensures position.Value() == FenValue(fen, keys)
  {
    hide PlacementOk, SquareNameOk;
    var fields := Options.Split(fen);
    assert |fields| >= 6 && PlacementOk(fields[0]) && (fields[3] != "-" ==> SquareNameOk(fields[3]));
    assert Options.ParseNat(fields[4]).Some? && Options.ParseNat(fields[5]).Some?;
    assert Options.ParseNat(fields[5]).value >= 1;
    hide Options.Split, Options.ParseNat, FenOk;
    hide PlacementBoard, CastlingOf, SideOf, ZobristKey, FenFields, FenValue;
    position := ReadPlacementAndSide(fields, keys);
    ghost var board := position.board;
    ghost var side := position.sideToMove;

    var castling := ParseCastling(fields[2]);
    CastlingBelow16(fields[2]);

    var enPassant := NONE;
    if fields[3] != "-" {
      enPassant := AlgebraicToSquare(fields[3]);
    }
    assert enPassant == EnPassantOf(fields[3]);
    hide EnPassantOf;
    var sinceLastCapture := Options.ParseNat(fields[4]).value;
    position.state := BoardState(sinceLastCapture, sinceLastCapture, castling, enPassant);

    var fullMoves := Options.ParseNat(fields[5]).value;
    position.halfMoveNumber := (fullMoves - 1) * 2;
    if position.sideToMove == BLACK {
      position.halfMoveNumber := position.halfMoveNumber + 1;
    }
    ghost var half := position.halfMoveNumber;
    ghost var read := position.Value();
    assert read == PositionValue(board, side, half,
      BoardState(sinceLastCapture, sinceLastCapture, castling, enPassant), [], 0, [], keys);
    FieldsRead(fen, keys, fields, board, side, half, sinceLastCapture, castling, enPassant);
    var hash := position.InitZobristKey();
    position.zobrist := hash;
    assert position.Value() == read.(zobrist := hash);
    HashRead(fen, keys, read, hash);
  }
}

module FenStart {
  import opened Wrappers
  import opened Models
  import opened Fen
  import Options

  /** Full castling rights read as all four flags; "-" reads as none. */
  lemma CastlingFields()
    ensures CastlingOf("KQkq") == ALL && CastlingOf("-") == NO_CASTLING
  {
    assert "KQkq"[..3] == "KQk" && "KQk"[..2] == "KQ" && "KQ"[..1] == "K" && "K"[..0] == "";
    assert "-"[..0] == "";
  }

  /** A token without spaces splits into itself. */
  lemma {:induction false} SplitToken(a: string)
    requires Options.NoSpace(a)
    ensures Options.Split(a) == [a]
  {
    if a != [] {
      SplitToken(a[1..]);
      assert [a[0]] + a[1..] == a;
    }
  }

  /** A token without spaces followed by a space splits off as the first field. */
  lemma {:induction false} SplitFirst(a: string, b: string)
    requires Options.NoSpace(a)
    ensures Options.Split(a + " " + b) == [a] + Options.Split(b)
  {
    if a == [] {
      assert a + " " + b == [' '] + b;
      assert (a + " " + b)[1..] == b;
    } else {
      SplitFirst(a[1..], b);
      assert (a + " " + b)[1..] == a[1..] + " " + b;
      assert [a[0]] + a[1..] == a;
    }
  }

  /** The start position's fields. */
  lemma StartFields()
    ensures Options.Split(START_POS) == ["rnbqkbnr/pppppppp/8/8/8/8/PPPPPPPP/RNBQKBNR", "w", "KQkq", "-", "0", "1"]
  {
    hide Options.Split;
    var f0 := "rnbqkbnr/pppppppp/8/8/8/8/PPPPPPPP/RNBQKBNR";
    var r5 := "1";
    var r4 := "0" + " " + r5;
    var r3 := "-" + " " + r4;
    var r2 := "KQkq" + " " + r3;
    var r1 := "w" + " " + r2;
    var r0 := f0 + " " + r1;
    assert START_POS == r0;
    SplitToken(r5);
    SplitFirst("0", r5);
    SplitFirst("-", r4);
    SplitFirst("KQkq", r3);
    SplitFirst("w", r2);
    SplitFirst(f0, r1);
  }

  /**
   * The start position's side, castling, en-passant, clock and move-number fields read
   * as white to move, all four castling rights, no en-passant square, a clock of 0 and
   * fullmove number 1, which makes half-move number 0.
   */
  lemma StartState()
    ensures SideOf("w") == WHITE && CastlingOf("KQkq") == ALL && EnPassantOf("-") == NONE
    ensures Options.ParseNat("0") == Some(0) && Options.ParseNat("1") == Some(1)
  {
    CastlingFields();
    assert "0"[..0] == "" && "1"[..0] == "";
  }
}
