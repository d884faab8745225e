/**
 * The text forms of board/display.rs: sides, squares, pieces, castles and moves as the
 * engine prints them, and how the move text reads back through `algebraic_to_move`.
 */
module Display {
  import opened Wrappers
  import opened Bits
  import opened Models
  import opened Notation
  import Fen

  /** `Display for Side`: "White", "Black", and "None" for any other index. */
  function SideText(side: nat): (s: string)
    ensures s == "White" <==> side == WHITE
    ensures s == "Black" <==> side == BLACK
    ensures s == "None" <==> side >= 2
  {
    if side == WHITE then "White" else if side == BLACK then "Black" else "None"
  }

  /** `Display for Square`: "-" for the empty set, otherwise the name of its highest square. */
  function SquareText(sq: bv64): (s: string)
    ensures sq == 0 <==> s == "-"
    ensures sq != 0 ==> IsSquareName(s) && Has(sq, SquareIndex(s))
  {
    if sq == 0 then "-" else SquareToAlgebraic(sq)
  }

  /** The text of a square reads back as that square. */
  lemma SquareTextRoundTrip(sq: bv64)
    requires IsSingle(sq)
    ensures SquareNameOk(SquareText(sq)) && AlgebraicToSquare(SquareText(sq)) == sq
  {
    SingleIsBit(sq);
    NameRoundTrip(Log2(sq));
  }

  /** `Display for Piece`: one upper-case letter per piece, "?" for any other index. */
  function PieceText(piece: nat): (s: string)
    ensures |s| == 1 && s[0] in "KBNPQR?"
    ensures s == "?" <==> piece >= 6
  {
    if piece == KING then "K"
    else if piece == BISHOP then "B"
    else if piece == KNIGHT then "N"
    else if piece == PAWN then "P"
    else if piece == QUEEN then "Q"
    else if piece == ROOK then "R"
    else "?"
  }

  /** The letter a piece prints as is the letter of that white piece in a FEN placement. */
  lemma PieceTextIsFenLetter(piece: nat)
    requires piece < 6
    ensures Fen.PieceOfLetter(PieceText(piece)[0]) == Some((WHITE, piece))
  {
  }

  /** No piece letter as printed is a promotion letter of `algebraic_to_move`, which reads lower case. */
  lemma PieceTextNotPromotion(piece: nat)
    ensures PromotionPiece(PieceText(piece)[0]).None?
  {
  }

  /** `Display for Castling`: the king's move for each single right, "0000" for any other value. */
  function CastlingText(c: bv8): (s: string)
    ensures c == WHITE_KING_SIDE <==> s == "e1g1"
    ensures c == BLACK_KING_SIDE <==> s == "e8g8"
    ensures c == WHITE_QUEEN_SIDE <==> s == "e1c1"
    ensures c == BLACK_QUEEN_SIDE <==> s == "e8c8"
    ensures s == "0000" <==> c !in {WHITE_KING_SIDE, BLACK_KING_SIDE, WHITE_QUEEN_SIDE, BLACK_QUEEN_SIDE}
  {
    if c == WHITE_KING_SIDE then "e1g1"
    else if c == BLACK_KING_SIDE then "e8g8"
    else if c == WHITE_QUEEN_SIDE then "e1c1"
    else if c == BLACK_QUEEN_SIDE then "e8c8"
    else "0000"
  }

  /** The king's from and to squares of a single castling right. */
  function KingSquares(c: bv8): (fromTo: (bv64, bv64))
  {
    if c == WHITE_KING_SIDE then (E1, G1)
    else if c == BLACK_KING_SIDE then (E8, G8)
    else if c == WHITE_QUEEN_SIDE then (E1, C1)
    else (E8, C8)
  }

  /** The printed castle names the king's two squares, which `algebraic_to_move` recognises as that castle. */
  lemma CastlingTextSquares(c: bv8)
    requires c in {WHITE_KING_SIDE, BLACK_KING_SIDE, WHITE_QUEEN_SIDE, BLACK_QUEEN_SIDE}
    ensures var s := CastlingText(c);
      && SquareNameOk(s[..2]) && SquareNameOk(s[2..4])
      && AlgebraicToSquare(s[..2]) == KingSquares(c).0 && AlgebraicToSquare(s[2..4]) == KingSquares(c).1
      && CastleOf(KingSquares(c).0, KingSquares(c).1) == Some(c)
  {
    var s := CastlingText(c);
    var (from, to) := KingSquares(c);
    assert SquareIndex(s[..2]) == TrailingZeros(from) by { TrailingZerosSingle(from); }
    assert SquareIndex(s[2..4]) == TrailingZeros(to) by { TrailingZerosSingle(to); }
    CastleSquares(c);
    SquareAt(s[..2], from);
    SquareAt(s[2..4], to);
  }

  lemma CastlingTextOk(c: bv8)
    requires c in {WHITE_KING_SIDE, BLACK_KING_SIDE, WHITE_QUEEN_SIDE, BLACK_QUEEN_SIDE}
    ensures Trim(CastlingText(c)) == CastlingText(c) && MoveTextOk(CastlingText(c))
  {
    var s := CastlingText(c);
    CastlingTextSquares(c);
    hide SquareNameOk, AlgebraicToSquare, CastleOf, KingSquares, CastlingText;
    CastleLetters(s);
    TrimKeeps(s);
  }

  /** The four castle texts: ASCII, from the e-file, on the first or last rank. */
  lemma CastleLetters(s: string)
    requires s in {"e1g1", "e8g8", "e1c1", "e8c8"}
    ensures |s| == 4 && s[0] == 'e' && (s[3] == '1' || s[3] == '8')
    ensures forall k | 0 <= k < |s| :: s[k] as int < 128
  {
  }

  lemma CastleSquares(c: bv8)
    requires c in {WHITE_KING_SIDE, BLACK_KING_SIDE, WHITE_QUEEN_SIDE, BLACK_QUEEN_SIDE}
    ensures IsSingle(KingSquares(c).0) && IsSingle(KingSquares(c).1)
    ensures CastleOf(KingSquares(c).0, KingSquares(c).1) == Some(c)
  {
  }

  /** A name whose index is the lowest (only) bit of a single square converts to that square. */
  lemma SquareAt(s: string, sq: bv64)
    requires SquareNameOk(s) && IsSingle(sq) && SquareIndex(s) == TrailingZeros(sq)
    ensures AlgebraicToSquare(s) == sq
  {
    TrailingZerosSingle(sq);
    var i := SquareIndex(s);
    assert AlgebraicToSquare(s) == Bit(i);
  }

  /**
   * `Display for Move`: from and to for normal and en-passant moves, from, to and the
   * piece letter for promotions, the castle's text for castles.
   */
  function MoveText(m: Move): (s: string)
    ensures m.Castle? ==> |s| == 4
    ensures (m.Normal? || m.EnPassant?) && IsSingle(m.from) && IsSingle(m.to) ==> |s| == 4
    ensures m.Promotion? && IsSingle(m.from) && IsSingle(m.to) ==> |s| == 5
  {
    match m
    case Normal(from, to) => SquareText(from) + SquareText(to)
    case Promotion(from, to, piece) => SquareText(from) + SquareText(to) + PieceText(piece)
    case Castle(castling) => CastlingText(castling)
    case EnPassant(from, to) => SquareText(from) + SquareText(to)
  }

  /** `Display for MoveInfo`: a move with its pieces prints exactly as the move does. */
  function MoveInfoText(mi: MoveInfo): (s: string)
    ensures s == MoveText(mi.m)
  {
    match mi.m
    case Normal(from, to) => SquareText(from) + SquareText(to)
    case Promotion(from, to, piece) => SquareText(from) + SquareText(to) + PieceText(piece)
    case Castle(castling) => CastlingText(castling)
    case EnPassant(from, to) => SquareText(from) + SquareText(to)
  }

  // ---- Reading the text back ----

  /** Text that starts and ends with a non-space character is its own trim. */
  lemma TrimKeeps(s: string)
    requires |s| > 0 && !IsWhitespace(s[0]) && !IsWhitespace(s[|s| - 1])
    ensures Trim(s) == s
  {
    assert TrimStart(s) == s;
    assert TrimEnd(s) == s;
  }

  /** Two square names and an optional printed letter make text `algebraic_to_move` accepts untrimmed. */
  lemma TextOk(a: string, b: string, suffix: string)
    requires IsSquareName(a) && IsSquareName(b)
    requires suffix == "" || (|suffix| == 1 && suffix[0] in "KBNPQR?")
    ensures var text := a + b + suffix; Trim(text) == text && MoveTextOk(text)
    ensures var text := a + b + suffix; text[..2] == a && text[2..4] == b && |text| == 4 + |suffix|
  {
    var text := a + b + suffix;
    assert text[..2] == a && text[2..4] == b;
    NamedIndex(a);
    NamedIndex(b);
    TrimKeeps(text);
  }

  /**
   * Two printed squares, followed by nothing or by one printed piece letter, read back
   * as the two squares and no promotion.
   */
  lemma SquaresReadBack(from: bv64, to: bv64, suffix: string, p: PositionValue)
    requires IsSingle(from) && IsSingle(to) && Shaped(p.board) && p.sideToMove < 2
    requires suffix == "" || (|suffix| == 1 && suffix[0] in "KBNPQR?")
    ensures var text := SquareText(from) + SquareText(to) + suffix;
      MoveTextOk(Trim(text)) && AlgebraicToMove(text, p) == MoveOf(from, to, None, p)
  {
    hide AlgebraicToMove, MoveOf;
    var a, b := SquareText(from), SquareText(to);
    SquareTextRoundTrip(from);
    SquareTextRoundTrip(to);
    hide SquareText;
    var text := a + b + suffix;
    TextOk(a, b, suffix);
    hide Trim, MoveTextOk;
    NoPromotion(text, suffix);
  }

  /** A printed piece letter after the two squares names no promotion. */
  lemma NoPromotion(text: string, suffix: string)
    requires suffix == "" || (|suffix| == 1 && suffix[0] in "KBNPQR?")
    requires |text| == 4 + |suffix| && text[4..] == suffix
    ensures |text| > 4 ==> PromotionPiece(text[4]) == None
  {
    if |text| > 4 {
      assert text[4] == suffix[0];
    }
  }

  /** A printed normal or en-passant move reads back as `MoveOf` its two squares and no promotion. */
  lemma MoveTextReadBack(m: Move, p: PositionValue, text: string)
    requires m.Normal? || m.EnPassant?
    requires IsSingle(m.from) && IsSingle(m.to) && Shaped(p.board) && p.sideToMove < 2
    requires text == MoveText(m)
    ensures MoveTextOk(Trim(text)) && AlgebraicToMove(text, p) == MoveOf(m.from, m.to, None, p)
  {
    SquaresReadBack(m.from, m.to, "", p);
    assert text == SquareText(m.from) + SquareText(m.to) + "";
  }

  /**
   * A printed normal move reads back as itself exactly when `algebraic_to_move` sees
   * neither an en-passant capture (a pawn of the mover moving to the en-passant square)
   * nor a castle (the mover's king on e1 or e8 going to the castle's square).
   */
  lemma NormalRoundTrip(from: bv64, to: bv64, p: PositionValue, text: string)
    requires IsSingle(from) && IsSingle(to) && Shaped(p.board) && p.sideToMove < 2
    requires text == MoveText(Normal(from, to))
    ensures MoveTextOk(Trim(text))
    ensures AlgebraicToMove(text, p) == Normal(from, to) <==> !EnPassantReading(from, to, p) && !CastleReading(from, to, p)
  {
    hide MoveText, SquareText, AlgebraicToMove, Meets, CastleOf, Trim, MoveTextOk, EnPassantReading, CastleReading, MoveOf;
    MoveTextReadBack(Normal(from, to), p, text);
    ReadingIff(MoveOf(from, to, None, p), from, to, p);
  }

  lemma ReadingIff(m: Move, from: bv64, to: bv64, p: PositionValue)
    requires Shaped(p.board) && p.sideToMove < 2
    requires m == MoveOf(from, to, None, p)
    ensures m == Normal(from, to) <==> !EnPassantReading(from, to, p) && !CastleReading(from, to, p)
  {
    hide EnPassantReading, CastleReading, MoveOf;
  }

  /** A printed en-passant move reads back as itself exactly when it is one for `algebraic_to_move`. */
  lemma EnPassantRoundTrip(from: bv64, to: bv64, p: PositionValue, text: string)
    requires IsSingle(from) && IsSingle(to) && Shaped(p.board) && p.sideToMove < 2
    requires text == MoveText(EnPassant(from, to))
    ensures MoveTextOk(Trim(text))
    ensures AlgebraicToMove(text, p) == EnPassant(from, to) <==> EnPassantReading(from, to, p)
  {
    MoveTextReadBack(EnPassant(from, to), p, text);
    hide MoveText, SquareText, AlgebraicToMove, Meets, CastleOf, Trim, MoveTextOk, EnPassantReading, CastleReading;
    ghost var m := MoveOf(from, to, None, p);
  }

  /** A printed promotion never reads back as itself: its piece letter is upper case. */
  lemma PromotionNoRoundTrip(from: bv64, to: bv64, piece: nat, p: PositionValue)
    requires IsSingle(from) && IsSingle(to) && Shaped(p.board) && p.sideToMove < 2
    ensures var text := MoveText(Promotion(from, to, piece));
      MoveTextOk(Trim(text)) && !AlgebraicToMove(text, p).Promotion?
  {
    SquaresReadBack(from, to, PieceText(piece), p);
  }

  /**
   * A printed castle reads back as itself when the mover's king stands on the castle's
   * from square and the move is not taken for an en-passant capture.
   */
  lemma CastleRoundTrip(c: bv8, p: PositionValue, text: string)
    requires c in {WHITE_KING_SIDE, BLACK_KING_SIDE, WHITE_QUEEN_SIDE, BLACK_QUEEN_SIDE}
    requires Shaped(p.board) && p.sideToMove < 2
    requires Meets(KingSquares(c).0, p.board.pieces[p.sideToMove][KING])
    requires !EnPassantReading(KingSquares(c).0, KingSquares(c).1, p)
    requires text == MoveText(Castle(c))
    ensures MoveTextOk(Trim(text)) && AlgebraicToMove(text, p) == Castle(c)
  {
    CastlingTextSquares(c);
    CastleSquares(c);
    var (from, to) := KingSquares(c);
    hide Meets, CastleOf, EnPassantReading, MoveOf, AlgebraicToSquare, KingSquares;
    assert text == CastlingText(c);
    CastlingTextOk(c);
    hide MoveTextOk, Trim, CastlingText, MoveText;
    assert CastleReading(from, to, p);
    hide CastleReading;
    ghost var m := MoveOf(from, to, None, p);
    assert m.Castle?;
  }
}
