/**
 * Square and move notation of board/utils.rs: square names ("e4") to one-square
 * bitboards and back, the rank and file of a square, and long algebraic moves
 * ("e2e4", "e7e8q") read against a position.
 */
module Notation {
  import opened Wrappers
  import opened Bits
  import opened Models

  // ---- Square names ----

  /** The square a name stands for: `(rank digit - 1) * 8 + (file letter - 'a')`. */
  function SquareIndex(s: string): int
    requires |s| >= 2
  {
    (s[1] as int - '1' as int) * 8 + (s[0] as int - 'a' as int)
  }

  /**
   * What `algebraic_to_square` needs not to panic: two characters, the first at or
   * after 'a', the second a digit from 1, naming an index the shift can reach. The
   * file letter itself is not checked against 'h'.
   */
  predicate SquareNameOk(s: string)
  {
    |s| >= 2 && 'a' <= s[0] && '1' <= s[1] <= '9' && SquareIndex(s) < 64
  }

  /** One of the 64 names "a1" .. "h8". */
  predicate IsSquareName(s: string)
  {
    |s| == 2 && 'a' <= s[0] <= 'h' && '1' <= s[1] <= '8'
  }

  /** The name of square `i`: file letter, then rank digit. */
  function SquareName(i: nat): (s: string)
    requires i < 64
    ensures IsSquareName(s) && SquareNameOk(s) && SquareIndex(s) == i
  {
    [('a' as int + i % 8) as char, ('1' as int + i / 8) as char]
  }

  /** A square name is the name of its own index. */
  lemma NamedIndex(s: string)
    requires IsSquareName(s)
    ensures SquareNameOk(s) && s == SquareName(SquareIndex(s))
  {
    var f, r := s[0] as int - 'a' as int, s[1] as int - '1' as int;
    assert (r * 8 + f) % 8 == f && (r * 8 + f) / 8 == r;
  }

  /** `algebraic_to_square`: the one-square bitboard of the square the first two characters name. */
  function AlgebraicToSquare(s: string): (sq: bv64)
    requires SquareNameOk(s)
    ensures IsSingle(sq) && Has(sq, SquareIndex(s))
  {
    BitSingle(SquareIndex(s));
    HasBit(SquareIndex(s), SquareIndex(s));
    Bit(SquareIndex(s))
  }

  /**
   * `bitboard_index_to_algebraic`: the name of the square at position `index` of the
   * 64-digit binary string, which counts from the highest bit.
   */
  function BitboardIndexToAlgebraic(index: nat): (name: string)
    requires index < 64
    ensures name == SquareName(63 - index)
  {
    var row := 7 - index / 8;
    var column := 7 - index % 8;
    // `row + 1` is a single decimal digit
    [('a' as int + column) as char, ('0' as int + row + 1) as char]
  }

  /** The 64 binary digits of `b`, zero-padded, highest bit first. */
  function Binary64(b: bv64): (s: string)
    ensures |s| == 64
  {
    seq(64, k requires 0 <= k < 64 => if Has(b, 63 - k) then '1' else '0')
  }

  /** `Iterator::position`: the first index holding `c`, if any. */
  function FirstIndex(s: seq<char>, c: char): (r: Option<nat>)
    ensures r.Some? ==> r.value < |s| && s[r.value] == c && forall k | 0 <= k < r.value :: s[k] != c
    ensures r.None? ==> forall k | 0 <= k < |s| :: s[k] != c
  {
    if |s| == 0 then None
    else if s[0] == c then Some(0)
    else match FirstIndex(s[1..], c)
      case Some(k) => Some(k + 1)
      case None => None
  }

  /** The first '1' of the binary string stands for the highest square of `b`. */
  lemma FirstOneHighest(b: bv64, index: nat)
    requires index < 64 && Binary64(b)[index] == '1'
    requires forall k | 0 <= k < index :: Binary64(b)[k] != '1'
    ensures Has(b, 63 - index)
    ensures forall j | 63 - index < j < 64 :: !Has(b, j)
  {
    var digits := Binary64(b);
    forall j | 63 - index < j < 64
      ensures !Has(b, j)
    {
      assert digits[63 - j] != '1';
    }
  }

  /**
   * `square_to_algebraic`: writes `b` as 64 binary digits and names the square of the
   * first '1', that is, the HIGHEST square of `b` (the `unwrap` panics on an empty set).
   */
  function SquareToAlgebraic(b: bv64): (name: string)
    requires b != 0
    ensures IsSquareName(name) && Has(b, SquareIndex(name))
    ensures forall j | SquareIndex(name) < j < 64 :: !Has(b, j)
  {
    var digits := Binary64(b);
    TrailingZerosBit(b);
    assert digits[63 - TrailingZeros(b)] == '1';
    var index := FirstIndex(digits, '1').value;
    FirstOneHighest(b, index);
    BitboardIndexToAlgebraic(index)
  }

  /** A one-square set holds a single index. */
  lemma SingleMember(s: bv64, i: nat, j: nat)
    requires IsSingle(s) && i < 64 && j < 64 && Has(s, i) && Has(s, j)
    ensures i == j && s == Bit(i)
  {
    SingleIsBit(s);
    HasBit(Log2(s), i);
    HasBit(Log2(s), j);
  }

  /** Naming the square a name stands for gives the name back, for each of the 64 names. */
  lemma SquareRoundTrip(s: string)
    requires IsSquareName(s)
    ensures SquareNameOk(s) && SquareToAlgebraic(AlgebraicToSquare(s)) == s
  {
    NamedIndex(s);
    var sq := AlgebraicToSquare(s);
    var name := SquareToAlgebraic(sq);
    SingleMember(sq, SquareIndex(s), SquareIndex(name));
    NamedIndex(name);
  }

  /** Reading back the name of a one-square set gives the set back. */
  lemma NameRoundTrip(i: nat)
    requires i < 64
    ensures SquareNameOk(SquareToAlgebraic(Bit(i)))
    ensures AlgebraicToSquare(SquareToAlgebraic(Bit(i))) == Bit(i)
  {
    BitSingle(i);
    var name := SquareToAlgebraic(Bit(i));
    HasBit(i, SquareIndex(name));
    var sq := AlgebraicToSquare(name);
    SingleMember(sq, i, i);
  }

  // ---- Rank and file ----

  /** `get_row`: the rank (0 for rank 1) of the lowest square; 8 for the empty set. */
  function GetRow(square: bv64): (r: nat)
    ensures r <= 8 && (r == 8 <==> square == 0)
  {
    TrailingZeros(square) / 8
  }

  /** `get_column`: the file (0 for file a) of the lowest square; 0 for the empty set. */
  function GetColumn(square: bv64): (c: nat)
    ensures c < 8
  {
    TrailingZeros(square) % 8
  }

  /** The rank and file of a named square are its digit and letter. */
  lemma RowColumnOfName(s: string)
    requires IsSquareName(s)
    ensures SquareNameOk(s)
    ensures GetRow(AlgebraicToSquare(s)) == s[1] as int - '1' as int
    ensures GetColumn(AlgebraicToSquare(s)) == s[0] as int - 'a' as int
  {
    NamedIndex(s);
    var i := SquareIndex(s);
    TrailingZerosOfBit(i);
    assert AlgebraicToSquare(s) == Bit(i);
    assert i / 8 == s[1] as int - '1' as int && i % 8 == s[0] as int - 'a' as int;
  }

  // ---- Trimming ----

  /** `char::is_whitespace`: the Unicode White_Space characters. */
  predicate IsWhitespace(c: char)
  {
    || '\t' <= c <= '\r' || c == ' ' || c == '\U{0085}' || c == '\U{00A0}' || c == '\U{1680}'
    || '\U{2000}' <= c <= '\U{200A}' || c == '\U{2028}' || c == '\U{2029}' || c == '\U{202F}'
    || c == '\U{205F}' || c == '\U{3000}'
  }

  /** `str::trim_start`: drops the leading white space. */
  function TrimStart(s: string): (t: string)
    ensures |t| <= |s| && t == s[|s| - |t|..]
    ensures forall k | 0 <= k < |s| - |t| :: IsWhitespace(s[k])
    ensures |t| > 0 ==> !IsWhitespace(t[0])
  {
    if |s| > 0 && IsWhitespace(s[0]) then TrimStart(s[1..]) else s
  }

  /** `str::trim_end`: drops the trailing white space. */
  function TrimEnd(s: string): (t: string)
    ensures |t| <= |s| && t == s[..|t|]
    ensures forall k | |t| <= k < |s| :: IsWhitespace(s[k])
    ensures |t| > 0 ==> !IsWhitespace(t[|t| - 1])
  {
    if |s| > 0 && IsWhitespace(s[|s| - 1]) then TrimEnd(s[..|s| - 1]) else s
  }

  /** `str::trim`: drops white space at both ends. */
  function Trim(s: string): (t: string)
    ensures |t| <= |s|
    ensures |t| > 0 ==> !IsWhitespace(t[0]) && !IsWhitespace(t[|t| - 1])
  {
    TrimEnd(TrimStart(s))
  }

  /** Trimming twice, as `algebraic_to_move` does, is trimming once. */
  lemma TrimTwice(s: string)
    ensures Trim(Trim(s)) == Trim(s)
  {
    var t := Trim(s);
    assert TrimStart(t) == t;
    assert TrimEnd(t) == t;
  }

  // ---- Moves ----

  /**
   * What `algebraic_to_move` needs of the trimmed text: two square names (the byte
   * slices `[..2]` and `[2..4]`), and ASCII characters up to the fifth, so that the
   * byte slices fall on character boundaries and the byte length exceeds 4 exactly
   * when there is a fifth character.
   */
  predicate MoveTextOk(t: string)
  {
    && |t| >= 4
    && (forall k | 0 <= k < |t| && k < 5 :: t[k] as int < 128)
    && SquareNameOk(t[..2]) && SquareNameOk(t[2..4])
  }

  /** The promotion letters: 'q', 'r', 'b' and 'k' (which stands for the knight). */
  function PromotionPiece(c: char): (r: Option<nat>)
    ensures r.Some? <==> c in "qrbk"
    ensures r.Some? ==> r.value in {QUEEN, ROOK, BISHOP, KNIGHT}
  {
    match c
    case 'q' => Some(QUEEN)
    case 'r' => Some(ROOK)
    case 'b' => Some(BISHOP)
    case 'k' => Some(KNIGHT)
    case _ => None
  }

  /** 'k' is the knight's promotion letter, and the UCI letter 'n' promotes to nothing. */
  lemma KnightLetter()
    ensures PromotionPiece('k') == Some(KNIGHT) && PromotionPiece('n') == None
  {
  }

  /** `(a & b) > 0`: the two sets share a square. */
  predicate Meets(a: bv64, b: bv64)
  {
    a & b > 0
  }

  /** The four castles as `algebraic_to_move` recognises them: the king's from and to squares. */
  function CastleOf(from: bv64, to: bv64): (r: Option<bv8>)
    ensures r.Some? ==> r.value in {WHITE_KING_SIDE, WHITE_QUEEN_SIDE, BLACK_KING_SIDE, BLACK_QUEEN_SIDE}
  {
    if Meets(from, E1) && Meets(to, G1) then Some(WHITE_KING_SIDE)
    else if Meets(from, E1) && Meets(to, C1) then Some(WHITE_QUEEN_SIDE)
    else if Meets(from, E8) && Meets(to, G8) then Some(BLACK_KING_SIDE)
    else if Meets(from, E8) && Meets(to, C8) then Some(BLACK_QUEEN_SIDE)
    else None
  }

  /** `to` is the en-passant square and `from` holds one of the mover's pawns. */
  predicate EnPassantReading(from: bv64, to: bv64, p: PositionValue)
    requires Shaped(p.board) && p.sideToMove < 2
  {
    to == p.state.enPassant && Meets(from, p.board.pieces[p.sideToMove][PAWN])
  }

  /** `from` holds the mover's king and the two squares are those of one of the four castles. */
  predicate CastleReading(from: bv64, to: bv64, p: PositionValue)
    requires Shaped(p.board) && p.sideToMove < 2
  {
    Meets(from, p.board.pieces[p.sideToMove][KING]) && CastleOf(from, to).Some?
  }

  /**
   * The move `algebraic_to_move` reads from its two squares and promotion letter: a
   * promotion when there is a letter; else en passant when `to` is the en-passant
   * square and `from` holds one of the mover's pawns; else a castle when `from` holds
   * the mover's king and the squares are one of e1g1, e1c1, e8g8, e8c8; else a normal move.
   */
  function MoveOf(from: bv64, to: bv64, promotion: Option<nat>, p: PositionValue): (m: Move)
    requires Shaped(p.board) && p.sideToMove < 2
    ensures m.Promotion? <==> promotion.Some?
    ensures m.Promotion? ==> m == Promotion(from, to, promotion.value)
    ensures m.EnPassant? <==> promotion.None? && EnPassantReading(from, to, p)
    ensures m.EnPassant? ==> m == EnPassant(from, to)
    ensures m.Castle? <==> promotion.None? && !m.EnPassant? && CastleReading(from, to, p)
    ensures m.Castle? ==> Some(m.castling) == CastleOf(from, to)
    ensures m.Normal? ==> m == Normal(from, to)
  {
    hide EnPassantReading, CastleReading;
    if promotion.Some? then Promotion(from, to, promotion.value)
    else if EnPassantReading(from, to, p) then EnPassant(from, to)
    else if CastleReading(from, to, p) then Castle(CastleOf(from, to).value)
    else Normal(from, to)
  }

  /** `algebraic_to_move`: the text trimmed, its two squares and its promotion letter read as `MoveOf` says. */
  function AlgebraicToMove(text: string, p: PositionValue): (m: Move)
    requires Shaped(p.board) && p.sideToMove < 2 && MoveTextOk(Trim(text))
    ensures var t := Trim(text);
      m == MoveOf(AlgebraicToSquare(t[..2]), AlgebraicToSquare(t[2..4]), if |t| > 4 then PromotionPiece(t[4]) else None, p)
  {
    TrimTwice(text);
    var t := Trim(Trim(text));
    var from := AlgebraicToSquare(t[..2]);
    var to := AlgebraicToSquare(t[2..4]);
    var promotion := if |t| > 4 then PromotionPiece(t[4]) else None;
    MoveOf(from, to, promotion, p)
  }
}
