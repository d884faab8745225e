// The evaluation constants of constants.rs, in centipawns.

module Values {
  const SILENT_MOVE_VALUE: int := 1
  const CAPTURE_VALUE: int := 2
  const MATE_VALUE: int := 9999999
  const KING_VALUE: int := 9999999
  const QUEEN_VALUE: int := 900
  const ROOK_VALUE: int := 500
  const BISHOP_VALUE: int := 333
  const KNIGHT_VALUE: int := 323
  const PAWN_VALUE: int := 100
  const BISHOP_PAIR_VALUE: int := 5
}
