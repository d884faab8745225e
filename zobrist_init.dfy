/**
 * The full Zobrist hash of a position, as `Position::init_zobrist_key` (board/models.rs)
 * computes it from scratch: starting from 0 it toggles in the key of every piece on
 * every square (piece type by piece type, white's squares then black's, lowest square
 * first), then the castling key, the side key and the en-passant key.
 */
module ZobristInit {
  import opened Bits
  import opened Models

  /** Toggles into `acc` the key of `side`'s `piece` on each square of `squares`, lowest first. */
  function SquaresHash(k: ZobristHashes, side: nat, piece: nat, squares: bv64, acc: bv64): bv64
    requires KeysShaped(k) && side < 2 && piece < 6
    decreases PopCount(squares)
  {
    if squares == 0 then acc
    else SquaresHash(k, side, piece, squares & (squares - 1), Toggle(acc, PieceKey(k, side, piece, TrailingZeros(squares))))
  }

  /** Toggles into `acc` the squares of every piece type from `n` up to the king. */
  function BoardHash(k: ZobristHashes, b: PiecePosition, n: nat, acc: bv64): bv64
    requires KeysShaped(k) && Shaped(b) && n <= 6
    decreases 6 - n
  {
    if n == 6 then acc
    else
      var white := SquaresHash(k, WHITE, n, b.pieces[WHITE][n], acc);
      BoardHash(k, b, n + 1, SquaresHash(k, BLACK, n, b.pieces[BLACK][n], white))
  }

  /** `init_zobrist_key`: the pieces, then the castling, side and en-passant keys. */
  function ZobristKey(p: PositionValue): bv64
    requires WellFormed(p)
  {
    var pieces := BoardHash(p.keys, p.board, 0, 0);
    Toggle(Toggle(Toggle(pieces, CastlingKey(p.keys, p.state.castling)), SideKey(p.keys, p.sideToMove)),
           EnPassantKey(p.keys, p.state.enPassant))
  }

  /** The unfolding `init_zobrist_key`'s inner loops step through, one square at a time. */
  lemma SquaresHashStep(k: ZobristHashes, side: nat, piece: nat, squares: bv64, acc: bv64)
    requires KeysShaped(k) && side < 2 && piece < 6 && squares != 0
    ensures TrailingZeros(squares) < 64 && PopCount(squares & (squares - 1)) < PopCount(squares)
    ensures SquaresHash(k, side, piece, squares, acc)
            == SquaresHash(k, side, piece, squares & (squares - 1), Toggle(acc, PieceKey(k, side, piece, TrailingZeros(squares))))
  {
    hide Toggle, PieceKey, TrailingZeros;
  }

  lemma SquaresHashNone(k: ZobristHashes, side: nat, piece: nat, acc: bv64)
    requires KeysShaped(k) && side < 2 && piece < 6
    ensures SquaresHash(k, side, piece, 0, acc) == acc
  {
  }

  /** The unfolding of the outer loop, one piece type at a time. */
  lemma BoardHashStep(k: ZobristHashes, b: PiecePosition, n: nat, acc: bv64)
    requires KeysShaped(k) && Shaped(b) && n < 6
    ensures BoardHash(k, b, n, acc)
            == BoardHash(k, b, n + 1, SquaresHash(k, BLACK, n, b.pieces[BLACK][n], SquaresHash(k, WHITE, n, b.pieces[WHITE][n], acc)))
  {
    hide SquaresHash;
  }

  lemma BoardHashDone(k: ZobristHashes, b: PiecePosition, acc: bv64)
    requires KeysShaped(k) && Shaped(b)
    ensures BoardHash(k, b, 6, acc) == acc
  {
  }

  /**
   * The inner loops of `init_zobrist_key`: toggles the key of every square of `squares`
   * into `acc`, clearing the lowest bit (`squares ^= 1 << trailing_zeros`) each time.
   */
  method ToggleSquares(k: ZobristHashes, side: nat, piece: nat, squares: bv64, acc: bv64) returns (r: bv64)
    requires KeysShaped(k) && side < 2 && piece < 6
    ensures r == SquaresHash(k, side, piece, squares, acc)
  {
    hide Toggle, PieceKey, SquaresHash, TrailingZeros, Lowest, Bit, PopCount;
    var rest := squares;
    r := acc;
    while rest > 0
      invariant SquaresHash(k, side, piece, rest, r) == SquaresHash(k, side, piece, squares, acc)
      decreases PopCount(rest)
    {
      TrailingZerosBit(rest);
      PeelLowest(rest);
      SquaresHashStep(k, side, piece, rest, r);
      var square := TrailingZeros(rest);
      rest := rest ^ Bit(square);
      r := Toggle(r, PieceKey(k, side, piece, square));
    }
    SquaresHashNone(k, side, piece, r);
  }

  /** Toggling a key twice cancels. */
  lemma ToggleTwice(a: bv64, x: bv64)
    ensures Toggle(Toggle(a, x), x) == a
  {
    assert a ^ x ^ x == a;
  }

  /** Toggles commute. */
  lemma ToggleSwap(a: bv64, x: bv64, y: bv64)
    ensures Toggle(Toggle(a, x), y) == Toggle(Toggle(a, y), x)
  {
    hide Toggle;
    ToggleGroups(a, x, y);
    ToggleGroups(a, y, x);
    XorCommutes(x, y);
  }

  /** Two toggles in a row toggle their combined key. */
  lemma ToggleGroups(a: bv64, x: bv64, y: bv64)
    ensures Toggle(Toggle(a, x), y) == Toggle(a, x ^ y)
  {
    ToggleIs(a, x);
    ToggleIs(Toggle(a, x), y);
    ToggleIs(a, x ^ y);
    hide Toggle;
    XorStep(Toggle(a, x), a, x, y);
  }

  lemma ToggleIs(h: bv64, key: bv64)
    ensures Toggle(h, key) == h ^ key
  {
  }

  lemma XorStep(t: bv64, a: bv64, x: bv64, y: bv64)
    requires t == a ^ x
    ensures t ^ y == a ^ (x ^ y)
  {
  }

  lemma XorCommutes(x: bv64, y: bv64)
    ensures x ^ y == y ^ x
  {
  }

  /** A lone piece toggles exactly its own key. */
  lemma SingleSquareHash(k: ZobristHashes, side: nat, piece: nat, i: nat, acc: bv64)
    requires KeysShaped(k) && side < 2 && piece < 6 && i < 64
    ensures SquaresHash(k, side, piece, Bit(i), acc) == Toggle(acc, PieceKey(k, side, piece, i))
  {
    BitSingle(i);
    TrailingZerosOfBit(i);
    hide TrailingZeros, Bit, Toggle;
    assert Bit(i) & (Bit(i) - 1) == 0;
  }

  /** An empty board toggles nothing, so only the state keys remain. */
  lemma {:induction false} EmptyBoardHash(k: ZobristHashes, n: nat, acc: bv64)
    requires KeysShaped(k) && n <= 6
    ensures BoardHash(k, EMPTY_BOARD, n, acc) == acc
    decreases 6 - n
  {
    if n < 6 {
      assert SquaresHash(k, WHITE, n, 0, acc) == acc;
      assert SquaresHash(k, BLACK, n, 0, acc) == acc;
      hide SquaresHash;
      EmptyBoardHash(k, n + 1, acc);
    }
  }

  /** Handing the move to the other side toggles out the old side key and toggles in the new one. */
  lemma SideToggle(p: PositionValue)
    requires WellFormed(p)
    ensures WellFormed(p.(sideToMove := Opposite(p.sideToMove)))
    ensures ZobristKey(p.(sideToMove := Opposite(p.sideToMove)))
            == Toggle(Toggle(ZobristKey(p), SideKey(p.keys, p.sideToMove)), SideKey(p.keys, Opposite(p.sideToMove)))
  {
    hide Toggle, BoardHash, CastlingKey, SideKey, EnPassantKey;
    var a := Toggle(BoardHash(p.keys, p.board, 0, 0), CastlingKey(p.keys, p.state.castling));
    var e := EnPassantKey(p.keys, p.state.enPassant);
    var s0, s1 := SideKey(p.keys, p.sideToMove), SideKey(p.keys, Opposite(p.sideToMove));
    ToggleSwap(Toggle(a, s0), e, s0);
    ToggleTwice(a, s0);
    ToggleSwap(a, s1, e);
  }
}
