# rusty-pigeon chess engine core, modelled in Dafny

This project models the core library of the rusty-pigeon bitboard chess engine:
- position make/unmake, with the incremental Zobrist hash and castling and en-passant bookkeeping;
- pseudo-legal and legal move generation;
- the sliding-attack (magic bitboard) tables;
- square and move notation and perft;
- the FEN parser;
- the text formatters and the board renderer;
- UCI `go` option parsing and the time budget;
- static evaluation and the piece-square tables.

The model proves properties of all of these. Every square set is a `bv64` with bit `8 * rank + file`, exactly as the engine's
`u64`. Sides and pieces are `nat` indices, so the engine's fall-back branches can be stated.

| Dafny module (file) | what it models |
|---|---|
| `Bits` (bits.dfy) | bit helpers: single bits, lowest set bit, pop count, trailing zeros |
| `Models` (models.rs types, models.dfy) | `Move`, `MoveInfo`, `PiecePosition`, `BoardState`, the castling and square constants, `opposite_side`; the value-level meaning of `apply_move` (`Applied`) and `undo_move` (`Undone`) |
| `Placement` (placement.dfy) | the board edits of the helper methods as functions on `PiecePosition` |
| `Game` (game.dfy) | `Position` as a Dafny class whose fields the methods update in place |
| `MakeUnmake`, `MoveEffects`, `ZobristInit` | round trip, counters, en passant, castling rights, board and hash effects of a move, and `init_zobrist_key` |
| `Engines` (engine.dfy) | `Engine` (hash history, incremental static eval, draw check) |
| `Generator`, `MoveGenProperties`, `Ordering`, `Magic` | move generation, its mode, pawn and castling properties, move ordering, and the magic tables |
| `MaskSizes` (mask_sizes.dfy) | the pop count of every rook and bishop mask, against the relevant-bit tables |
| `Notation`, `MoveCounting`, `Sums` | `utils.rs`: squares, long algebraic moves, perft |
| `Fen`, `FenStart`, `Display`, `Render`, `Options` | FEN parser; `Display` impls and board text; UCI `go` options |
| `Evaluation`, `PieceSquareTables`, `Values`, `Tables` | static evaluation and its constant tables |

Modelling choices:
- **Zobrist keys** are abstract tables held by the position (`ZobristHashes`, with `PieceKey`, `CastleKey`, `SideKey`, `EnPassantKey`). The `prev` chains of `BoardState` and `ZobristValue` are stacks (`statePrev`, `zobristPrev`).
- **Move generation** takes a `Lookups` value, whose slider-attack functions and king and knight tables are parameters. `Generator.MAGIC_LOOKUPS` and `MagicLookupsAgree` tie it to the `Magic.MagicBitboard` class.
- **The engine** calls `Evaluate::evaluate_material`, which is not defined in `src/evaluate/evaluator.rs`. The model takes the freshly computed material as a parameter of `Engines.Engine.ApplyMove`.
- **Rust panics** (`unwrap` on malformed input, `usize` underflow, out-of-range indexing) are preconditions.
- **Deviations from FIDE and UCI are modelled as written**:
  - the fifty-move test fires after more than 50 half-moves;
  - 'k' is the knight promotion letter;
  - promotions print an uppercase letter, so they do not read back (`Display.PromotionNoRoundTrip`).

## Model

| member | source | states |
|---|---|---|
| Models.Opposite | src/board/models.rs:242-248 | for a side below 2 the result is the other side; white and black map to each other |
| Models.CastlingOnlyLoses | src/board/models.rs:555-594 | the castling value after any move has no bit that was not set before |
| Models.CastlingAfterClears | src/board/models.rs:555-608 | the new castling value is the old one with exactly the rights lost by the move's events removed |
| Models.CastlingAfterBelow | src/board/models.rs:555-594 | the castling value after a move stays a subset of the four rights |
| Models.Applied | src/board/models.rs:343-622 | the position after a move is well formed (counters, stacks, board shape) |
| Models.Undone | src/board/models.rs:257-340 | the position after an undo is well formed |
| MakeUnmake.BoardRoundTrip | src/board/models.rs:664-723 | undoing a move's board effect after applying it gives back every side and piece bitboard |
| MakeUnmake.ApplyUndo | src/board/models.rs:257-622 | for a move that fits the board, undo after apply restores the whole position: bitboards, side, half-move number, state, hash and both stacks |
| MoveEffects.AppliedCounters | src/board/models.rs:515-531 | apply flips the side, adds exactly 1 to the half-move number, resets since-capture to 0 exactly on a capture and otherwise adds 1 |
| MoveEffects.UndoneCounters | src/board/models.rs:257-340 | undo flips the side back, subtracts 1 from the half-move number and pops one state and one hash |
| MoveEffects.DoublePushEnPassant | src/board/models.rs:533-542 | a pawn's double push sets the en-passant square to the square passed over |
| MoveEffects.E2E4EnPassant | src/board/models.rs:371-375 | e2e4 by a white pawn sets the en-passant square to E3 |
| MoveEffects.OnlyDoublePushEnPassant | src/board/models.rs:533-542 | every move that is not a pawn's two-square move sets the en-passant square to NONE |
| MoveEffects.CastlingEventsLost | src/board/models.rs:555-594 | rights only shrink; a king move clears both own rights, a rook leaving its corner clears that wing, capturing the enemy rook on its corner clears the enemy's wing |
| MoveEffects.EventsOfMove | src/board/models.rs:555-594 | which events a move raises: any king move, a rook move from its home corner, a capture of a rook on the enemy's corner |
| MoveEffects.NormalMoverBoards | src/board/models.rs:664-678 | a Normal move removes `from` and adds `to` on the mover's side board and piece board and leaves its other piece boards unchanged |
| MoveEffects.NormalCapturedBoards | src/board/models.rs:697-703 | on a capture the opponent's side board and the captured piece's board lose `to`; without a capture the opponent's boards are unchanged |
| MoveEffects.NormalMoveKeepsUnion | src/board/models.rs:664-703 | after a Normal move each side board is still the union of its six piece boards |
| MoveEffects.QuietMoveHash | src/board/models.rs:544-618 | for a quiet move that changes no en passant and no rights, the new hash is the old one XOR the from and to piece keys and the new side's key |
| MoveEffects.DoublePushHash | src/board/models.rs:544-553 | a double push further XORs in the old and new en-passant keys |
| ZobristInit.ToggleSquares | src/board/models.rs:742-758 | the bit-peeling loop XORs the key of every set square into the accumulator |
| ZobristInit.EmptyBoardHash | src/board/models.rs:738-759 | the square keys of an empty board add nothing |
| ZobristInit.SingleSquareHash | src/board/models.rs:742-758 | a board with one piece contributes exactly that piece's square key |
| ZobristInit.SideToggle | src/board/models.rs:765 | flipping the side to move changes the full hash by the XOR of the two side keys |
| Game.Position.constructor | src/board/models.rs:230-239 | a fresh position is empty, white to move, half move 0, with empty state and empty stacks |
| Game.Position.SetPiece | src/board/models.rs:251-254 | the bit is set in the side board and the piece board |
| Game.Position.RemovePiece | src/board/models.rs:624-634 | the bit is cleared from the piece board and the piece's square key is XORed into the hash |
| Game.Position.AddPiece | src/board/models.rs:636-640 | the bit is set on the piece board and the piece's square key is XORed into the hash |
| Game.Position.SetSidePiecesFromMove | src/board/models.rs:697-703 | the mover's side board moves `from` to `to`; on a capture the opponent's side board loses `to` |
| Game.Position.SetSidePiecesBackFromMove | src/board/models.rs:705-711 | the inverse side-board edit |
| Game.Position.SetSidePiecesFromEnpassant | src/board/models.rs:713-717 | the mover's side board moves and the opponent's loses the captured pawn's square |
| Game.Position.SetSidePiecesBackFromEnpassant | src/board/models.rs:719-723 | the inverse en-passant side-board edit |
| Game.Position.Castle | src/board/models.rs:642-662 | king and rook move on both side and piece boards; the four square keys enter the hash |
| Game.Position.MovePieceFromMove | src/board/models.rs:664-678 | the moved piece and any captured piece are edited on the boards and in the hash |
| Game.Position.PromoteFromMove | src/board/models.rs:680-695 | the pawn leaves `from`, the promoted piece appears on `to`, any captured piece is removed, with hash keys |
| Game.Position.MoveNormal | src/board/models.rs:369-415 | the board of a Normal move is the placement function's, the hash is the pieces' hash |
| Game.Position.NormalEvents | src/board/models.rs:369-415 | the computed en-passant square and castling events are those of the move |
| Game.Position.PromotionEvents | src/board/models.rs:417-445 | a promotion's castling events are those of the move |
| Game.Position.MovePromotion | src/board/models.rs:417-445 | board and hash of a promotion |
| Game.Position.MoveEnPassant | src/board/models.rs:447-467 | board and hash of an en-passant capture |
| Game.Position.MoveCastle | src/board/models.rs:469-512 | board, hash and events of a castle |
| Game.Position.MovePieces | src/board/models.rs:343-512 | the board after the piece phase is `MovedBoard`, with the pieces' hash and the move's events |
| Game.Position.ClearCastling | src/board/models.rs:555-594 | the castling value is the old one with the rights the events revoke cleared |
| Game.Position.EnPassantStep | src/board/models.rs:544-553 | the old and new en-passant keys are XORed in only when the square changed |
| Game.Position.CastlingStep | src/board/models.rs:555-608 | new castling value and the castling keys XORed in only when the value changed |
| Game.Position.StateAndHash | src/board/models.rs:515-618 | the new state and hash are the specification's |
| Game.Position.PushState | src/board/models.rs:612-621 | the side flips, the half-move number grows by 1 and the old state and hash are pushed |
| Game.Position.ApplyMove | src/board/models.rs:343-622 | the new position is `Applied` of the old one |
| Game.Position.UnmoveNormal | src/board/models.rs:262-273 | the board of an undone Normal move is the replacement function's |
| Game.Position.UnmovePromotion | src/board/models.rs:274-285 | board of an undone promotion |
| Game.Position.UnmoveEnPassant | src/board/models.rs:286-299 | board of an undone en passant |
| Game.Position.CastleBack | src/board/models.rs:300-335 | king and rook go back on side and piece boards |
| Game.Position.UnmoveCastle | src/board/models.rs:301-335 | board of an undone castle |
| Game.Position.UnmovePieces | src/board/models.rs:257-335 | the board after the undo phase is `UnmovedBoard` |
| Game.Position.PopState | src/board/models.rs:336-339 | the side flips back, the half-move number drops by 1, the state and hash are popped |
| Game.Position.UndoMove | src/board/models.rs:257-340 | the new position is `Undone` of the old one |
| Game.Position.ApplyThenUndo | src/board/models.rs:257-622 | apply followed by undo leaves the position unchanged |
| Game.Position.InitZobristKey | src/board/models.rs:733-775 | the hash is the XOR of all piece keys, the castling key, the side key and the en-passant key |
| Engines.UpdatedEval | src/board/models.rs:76-113 | the cached evaluation stays cached exactly when it was; a quiet non-promotion leaves it unchanged |
| Engines.Signed | src/board/models.rs:76-113 | white keeps the value, black negates it, another index gives 0 |
| Engines.UpdateCancels | src/board/models.rs:60-74 | applying the update for a move and the opposite side's update for the same move cancel out |
| Engines.Window | src/board/models.rs:181-207 | the window holds the last `n` hashes of the history, in order |
| Engines.DrawByRepetition | src/board/models.rs:177-208 | at a counter of 50 or less a draw needs a counter of at least 8, at least three history entries and three copies of the latest hash in the window |
| Engines.FiftyMoveDraw | src/board/models.rs:177-180 | a counter above 50 is a draw whatever the history |
| Engines.RepeatedThrice | src/board/models.rs:181-207 | the counting loop answers whether the latest hash occurs at least three times in the window |
| Engines.Engine.FromPosition | src/board/models.rs:45-58 | the engine wraps the position with an empty hash history, no cached evaluation and an empty table |
| Engines.Engine.ApplyMove | src/board/models.rs:60-68 | the position is `Applied`, exactly one hash is pushed, and the cached evaluation is updated |
| Engines.Engine.UndoMove | src/board/models.rs:70-74 | the position is `Undone`, exactly one hash is popped, and the evaluation update is undone |
| Engines.Engine.UpdateStaticEval | src/board/models.rs:76-113 | the cached evaluation is updated for the move; nothing else changes |
| Engines.Engine.CheckDrawConditions | src/board/models.rs:177-208 | the answer is the draw predicate of the counter and the hash history |
| Generator.FirstPieceOn | src/movegen/generator.rs:842-858 | the index found is the first piece board meeting the square; none before it does |
| Generator.GetEnemyPieceInSquare | src/movegen/generator.rs:842-858 | the result is the specification's enemy piece on the square |
| Generator.FirstPieceOnFinds | src/movegen/generator.rs:842-858 | a square met by some piece board is always found, at or before that board |
| Generator.MagicLookupsAgree | src/movegen/magic.rs:10-26 | the lookups used by the generator are the initialised magic tables' |
| Generator.PushTargets | src/movegen/generator.rs:253-300 | the bit-peeling loop appends exactly the target moves of the mask |
| Generator.GetPieceMoves | src/movegen/generator.rs:238-308 | the moves are those of the specification for that piece and mode |
| Generator.GetQueenMoves | src/movegen/generator.rs:238-308 | queen moves as specified |
| Generator.GetBishopMoves | src/movegen/generator.rs:310-386 | bishop moves as specified |
| Generator.GetRookMoves | src/movegen/generator.rs:388-457 | rook moves as specified |
| Generator.GetKnightMoves | src/movegen/generator.rs:573-639 | knight moves as specified |
| Generator.PushCastles | src/movegen/generator.rs:517-567 | appends exactly the castle moves of the specification |
| Generator.GetKingMoves | src/movegen/generator.rs:459-571 | king moves, including castles outside OnlyCaptures |
| Generator.PushPawnStep | src/movegen/generator.rs:665-693 | one push or capture, as four promotions on the last rank or one plain move |
| Generator.PushPawnSingle | src/movegen/generator.rs:657-694 | the single push, if the front square is empty |
| Generator.PushPawnDouble | src/movegen/generator.rs:696-715 | the double push, from the start rank with both squares empty |
| Generator.PushPawnPushes | src/movegen/generator.rs:657-716 | all pushes of one pawn |
| Generator.PushPawnCapture | src/movegen/generator.rs:733-763 | one diagonal capture of an enemy piece |
| Generator.PushPawnEnPassant | src/movegen/generator.rs:809-820 | the en-passant capture when a capture square is the en-passant square |
| Generator.PushPawnCaptures | src/movegen/generator.rs:718-820 | all captures of one pawn |
| Generator.GetPawnMoves | src/movegen/generator.rs:641-827 | pawn moves as specified |
| Generator.GetPseudoLegalMoves | src/movegen/generator.rs:171-188 | the concatenation of the per-piece generators, in the source's order |
| Generator.AppliedUndoable | src/movegen/generator.rs:121-136 | a position after a move can undo it and has the other side to move |
| Generator.IsPositionCheck | src/movegen/generator.rs:138-149 | the answer is whether the side to move's king is attacked |
| Generator.IsCheck | src/movegen/generator.rs:121-136 | the answer is whether the move leaves the mover in check; the position is restored when the move fits |
| Generator.AreAttackedForCastling | src/movegen/generator.rs:151-169 | the answer is whether any of the king's path squares is attacked; the position is unchanged |
| Generator.CastleAttacked | src/movegen/generator.rs:69-113 | the path check from the king's square; the position is unchanged |
| Generator.IsLegal | src/movegen/generator.rs:69-119 | the answer is the legality verdict, which rejects a castle through an attacked square; the position is restored |
| Generator.FilterLegal | src/movegen/generator.rs:190-236 | the kept moves are exactly the legal ones, in order |
| Generator.LegalOfMembers | src/movegen/generator.rs:190-236 | a pseudo-legal move is kept exactly when it is legal |
| Generator.LegalOfWithin | src/movegen/generator.rs:190-236 | every kept move was generated |
| Generator.GetLegalMoves | src/movegen/generator.rs:190-236 | the legal moves of the specification; the position is unchanged |
| MoveGenProperties.CaptureLeftNoWrap | src/movegen/generator.rs:720-732 | the left capture square is a 7- or 9-step shift masked off the h-file, so it never wraps |
| MoveGenProperties.CaptureRightNoWrap | src/movegen/generator.rs:764-776 | the right capture square is masked off the a-file, so it never wraps |
| MoveGenProperties.CapturesAdjacent | src/movegen/generator.rs:720-776 | both capture squares are adjacent to the pawn |
| MoveGenProperties.CaptureLeftSingle | src/movegen/generator.rs:720-732 | the left capture is empty or one square |
| MoveGenProperties.CaptureRightSingle | src/movegen/generator.rs:764-776 | the right capture is empty or one square |
| MoveGenProperties.EnemyFound | src/movegen/generator.rs:842-858 | a square holding an enemy piece yields that piece's index |
| MoveGenProperties.TargetMovesKeep | src/movegen/generator.rs:253-300 | target moves obey their mode: All never hits an own piece, OnlySilent captures nothing on empty squares, OnlyCaptures takes the enemy piece found there |
| MoveGenProperties.TargetMovesShape | src/movegen/generator.rs:253-300 | every target move is a Normal move from the square, by the piece, into the mask |
| MoveGenProperties.PiecesMovesKeep | src/movegen/generator.rs:238-308 | the moves of all pieces of a type obey the mode |
| MoveGenProperties.PawnsMovesKeep | src/movegen/generator.rs:641-827 | pawn moves obey the mode, en passant included |
| MoveGenProperties.KingMovesKeep | src/movegen/generator.rs:459-571 | king moves and castles obey the mode |
| MoveGenProperties.PseudoLegalKeepsKind | src/movegen/generator.rs:171-188 | every pseudo-legal move obeys the mode |
| MoveGenProperties.LegalMovesKeepKind | src/movegen/generator.rs:190-236 | every legal move obeys the mode |
| MoveGenProperties.PawnsMovesOk | src/movegen/generator.rs:650-716 | pawn moves start on a pawn; promotions exactly from the pre-promotion rank; a double push only from the start rank over two empty squares |
| MoveGenProperties.PawnsMovesInFours | src/movegen/generator.rs:650-806 | promotions come in blocks of four (queen, rook, knight, bishop) with the same squares |
| MoveGenProperties.CastleMovesExact | src/movegen/generator.rs:517-567 | a castle is generated exactly when it is the side's own, its right is set and the squares between king and rook are empty |
| MoveGenProperties.CastleGenerated | src/movegen/generator.rs:459-571 | a castle is among the king moves exactly when the mode is not OnlyCaptures and the castle is allowed |
| Ordering.GetValue | src/movegen/generator.rs:28-47 | promotion 9999, castle 99, capture 100 + captured + 10 - piece, quiet the piece index |
| Ordering.ValueRanks | src/movegen/generator.rs:28-47 | promotions above castles above captures above quiet moves |
| Ordering.CaptureOrder | src/movegen/generator.rs:28-47 | a capture of a bigger piece by a smaller one ranks higher |
| Ordering.SortMoves | src/movegen/generator.rs:57-59 | the array is sorted by value, highest first, and is a permutation of the input |
| MoveCounting.GetOrderedMovesByKind | src/movegen/generator.rs:61-67 | the legal moves of the mode, sorted highest first; the position is unchanged |
| MoveCounting.Perft | src/board/utils.rs:83-90 | the count is 0 at depth 0, the number of legal moves at depth 1, and otherwise the sum over the children; the position is unchanged |
| MoveCounting.PerftUnfold | src/board/utils.rs:83-90 | deeper than 1 the count is the sum of the children's counts |
| MoveCounting.PerftChildren | src/board/utils.rs:126-134 | the loop sums the children's counts and restores the position |
| MoveCounting.PerftChild | src/board/utils.rs:129-131 | one child: apply, count one level less, undo |
| Sums.SumPermutation | src/board/utils.rs:126-134 | the sum over the children does not depend on their order |
| Magic.MaskRookAttacks | src/movegen/magic.rs:252-289 | the mask is the four rays of the specification |
| Magic.RookMaskExcludesSquare | src/movegen/magic.rs:252-289 | the rook mask never contains the square |
| Magic.MaskWalk | src/movegen/magic.rs:252-289 | one walking loop builds the ray up to the last inner square |
| Magic.MaskRayInner | src/movegen/magic.rs:144-192 | an inner square is in the mask ray and the ray goes on from the next one |
| Magic.MaskBishopAttacks | src/movegen/magic.rs:144-192 | the mask is the four diagonal rays of the specification |
| Magic.BishopMaskExcludesSquare | src/movegen/magic.rs:144-192 | the bishop mask never contains the square |
| Magic.RookAttacksOnTheFly | src/movegen/magic.rs:194-250 | the attacks are the four rays up to and including the first blocker |
| Magic.RookAttacksExcludeSquare | src/movegen/magic.rs:194-250 | the rook attacks never contain the square |
| Magic.AttackWalk | src/movegen/magic.rs:194-250 | one walking loop stops after the first blocked square or at the edge |
| Magic.AttackEndShape | src/movegen/magic.rs:194-250 | the walk ends on the first blocker or just off the board, along the direction |
| Magic.AttackRayBlocked | src/movegen/magic.rs:73-142 | a blocked square ends the ray and is included |
| Magic.AttackRayOpen | src/movegen/magic.rs:73-142 | an open square is included and the ray goes on |
| Magic.BishopAttacksOnTheFly | src/movegen/magic.rs:73-142 | the attacks are the four diagonals up to and including the first blocker |
| Magic.BishopAttacksExcludeSquare | src/movegen/magic.rs:73-142 | the bishop attacks never contain the square |
| Magic.SetOccupancy | src/movegen/magic.rs:291-308 | the loop result is the occupancy selected by the index |
| Magic.OccupancyWithin | src/movegen/magic.rs:291-308 | the occupancy is a subset of the mask |
| Magic.OccupancySelects | src/movegen/magic.rs:291-308 | bit c of the index selects the c-th lowest set bit of the mask |
| Magic.OccupancyInjective | src/movegen/magic.rs:291-308 | distinct indices below 2^n give distinct subsets |
| Magic.MagicIndex | src/movegen/magic.rs:10-26 | the index fits the 4096-entry table, and the 512-entry one for at most 9 bits |
| MaskSizes.AddSquare | src/movegen/magic.rs:40-42 | adding a square not in the set adds one to `count_ones` |
| MaskSizes.CountOnto | src/movegen/magic.rs:252-289 | a mask walk added to a set that misses it adds the walk's length (its span) to the pop count |
| MaskSizes.MaskRayAligned | src/movegen/magic.rs:252-289 | every square of a mask walk lies on the walk's line |
| MaskSizes.RookMaskCount | src/movegen/magic.rs:252-289 | the rook mask holds the squares of its four walks, none twice: their spans add up to its pop count |
| MaskSizes.BishopMaskCount | src/movegen/magic.rs:144-192 | the same for the four diagonal walks of the bishop mask |
| MaskSizes.RookSpanBits | src/movegen/magic.rs:312-321 | every entry of ROOK_RELEVANT_BITS is the rook span of its square |
| MaskSizes.BishopSpanBits | src/movegen/magic.rs:325-334 | every entry of BISHOP_RELEVANT_BITS is the bishop span of its square |
| MaskSizes.RookRelevantBits | src/movegen/magic.rs:52-60 | `count_ones` of the rook mask of a square equals ROOK_RELEVANT_BITS of the square |
| MaskSizes.BishopRelevantBits | src/movegen/magic.rs:40-48 | `count_ones` of the bishop mask of a square equals BISHOP_RELEVANT_BITS of the square |
| MaskSizes.MaskSizeIsRelevantBits | src/movegen/magic.rs:10-26 | the lookups keep as many index bits as the mask of the square has squares, for both sliders |
| Magic.SliderIndex | src/movegen/magic.rs:10-26 | the index fits the slider's table row |
| Magic.RelevantBits | src/movegen/magic.rs:312-334 | between 1 and 12 relevant bits, at most 9 for bishops |
| Magic.RowStored | src/movegen/magic.rs:28-62 | after filling, each subset's entry holds the on-the-fly attacks of that subset |
| Magic.FillRow | src/movegen/magic.rs:43-62 | the loop over subsets fills one square's row and no other |
| Magic.FillSquare | src/movegen/magic.rs:33-62 | one square's masks and both attack rows are stored |
| Magic.MagicBitboard.Init | src/movegen/magic.rs:28-71 | every table is filled as specified |
| Magic.MagicBitboard.BishopLookup | src/movegen/magic.rs:10-17 | the bishop lookup returns the on-the-fly attacks of the masked occupancy |
| Magic.MagicBitboard.BishopEntry | src/movegen/magic.rs:10-17 | the lookup depends only on the occupancy within the mask |
| Magic.InitializedBishopLookup | src/movegen/magic.rs:10-17 | after `Init`, the bishop lookup is the specification's |
| Magic.MagicBitboard.RookLookup | src/movegen/magic.rs:19-26 | the rook lookup returns the on-the-fly attacks of the masked occupancy |
| Magic.MagicBitboard.RookEntry | src/movegen/magic.rs:19-26 | the lookup depends only on the occupancy within the mask |
| Magic.InitializedRookLookup | src/movegen/magic.rs:19-26 | after `Init`, the rook lookup is the specification's |
| Magic.KnightLookupSteps | src/movegen/magic.rs:472-482 | each knight table entry is the set of knight jumps that stay on the board, without the square |
| Magic.KnightLookupShift | src/movegen/magic.rs:472-482 | each knight table entry equals the shifted-mask formula |
| Magic.KingLookupSteps | src/movegen/magic.rs:486-496 | each king table entry is the set of adjacent squares, without the square |
| Magic.KingLookupShift | src/movegen/magic.rs:486-496 | each king table entry equals the shifted-mask formula |
| Notation.AlgebraicToSquare | src/board/utils.rs:11-17 | the square is the single bit of the name's rank and file |
| Notation.BitboardIndexToAlgebraic | src/board/utils.rs:19-24 | the name of index i is the name of square 63 - i |
| Notation.SquareToAlgebraic | src/board/utils.rs:26-30 | the name is that of the highest set square |
| Notation.SquareRoundTrip | src/board/utils.rs:11-30 | naming the square of a name gives the name back, for all 64 names |
| Notation.NameRoundTrip | src/board/utils.rs:19-30 | reading the name of a square gives the square back |
| Notation.GetRow | src/board/utils.rs:32-35 | the row is below 8, and 8 exactly for the empty set |
| Notation.GetColumn | src/board/utils.rs:37-40 | the column is below 8 |
| Notation.RowColumnOfName | src/board/utils.rs:11-40 | the row and column of a named square are its rank and file |
| Notation.Trim | src/board/utils.rs:43 | the trimmed text has no leading or trailing whitespace |
| Notation.TrimTwice | src/board/utils.rs:43 | trimming is idempotent |
| Notation.PromotionPiece | src/board/utils.rs:46-55 | q, r, b, k give queen, rook, bishop, knight; any other character none |
| Notation.KnightLetter | src/board/utils.rs:51 | 'k' is the knight letter and 'n' is not a promotion |
| Notation.CastleOf | src/board/utils.rs:66-78 | only the four king moves name a castle |
| Notation.MoveOf | src/board/utils.rs:57-79 | a promotion exactly with a promotion letter, en passant exactly on the en-passant square with own pawn, otherwise castle or normal |
| Notation.AlgebraicToMove | src/board/utils.rs:42-80 | the move read from the trimmed text's squares and fifth character |
| Fen.PieceOfLetter | src/board/fen.rs:70-131 | exactly the twelve FEN letters name a side and piece |
| Fen.PlacementUnions | src/board/fen.rs:70-131 | the parsed board's side boards are the unions of its piece boards |
| Fen.SetPiece | src/board/models.rs:251-254 | the board keeps its shape |
| Fen.ParsePiecePosition | src/board/fen.rs:70-131 | the character loop gives the specification's board on the starting index 56 |
| Fen.SideOf | src/board/fen.rs:19-25 | white exactly for 'w', black for anything else |
| Fen.ParseSide | src/board/fen.rs:19-25 | the position's side is set from the field |
| Fen.CastlingOf | src/board/fen.rs:27-37 | each right is set exactly when its letter occurs; the value is a subset of all rights |
| Fen.ParseCastling | src/board/fen.rs:27-37 | the loop's accumulator is the specification's value |
| Fen.EnPassantOf | src/board/fen.rs:39-44 | "-" exactly gives NONE |
| Fen.FenValue | src/board/fen.rs:11-68 | the parsed position is well formed, and its hash is the full hash of the fields |
| Fen.FenFacts | src/board/fen.rs:47-64 | empty stacks, the clock in both counters, the half-move number from the full-move number and side, rights within all, side boards as unions, hash equal to the full hash |
| Fen.FenToPosition | src/board/fen.rs:11-68 | a fresh position holding the parsed value |
| FenStart.StartFields | src/board/test.rs:12-33 | the start FEN splits into its six fields |
| FenStart.StartState | src/board/fen.rs:19-44 | the start fields give white to move, all rights, no en passant, counters 0 and 1 |
| FenStart.CastlingFields | src/board/fen.rs:27-37 | "KQkq" gives all rights and "-" none |
| Display.SideText | src/board/display.rs:40-49 | White, Black or None |
| Display.SquareText | src/board/display.rs:51-59 | "-" exactly for 0, the square's name otherwise |
| Display.SquareTextRoundTrip | src/board/display.rs:51-59 | the printed name of a square reads back as the square |
| Display.PieceText | src/board/display.rs:61-73 | one of K, B, N, P, Q, R, and "?" exactly for an unknown index |
| Display.PieceTextIsFenLetter | src/board/display.rs:61-73 | the printed letter is the white piece's FEN letter |
| Display.PieceTextNotPromotion | src/board/display.rs:61-73 | the uppercase letters are not promotion letters |
| Display.CastlingText | src/board/display.rs:75-85 | e1g1, e8g8, e1c1, e8c8 exactly for the single rights, "0000" otherwise |
| Display.CastleRoundTrip | src/board/display.rs:75-85 | a printed castle reads back as the castle |
| Display.MoveText | src/board/display.rs:87-96 | four characters, and five for a promotion |
| Display.MoveInfoText | src/board/display.rs:98-107 | a MoveInfo prints as its move |
| Display.NormalRoundTrip | src/board/display.rs:87-96 | a printed Normal move reads back as itself exactly when it is neither an en-passant nor a castle reading |
| Display.EnPassantRoundTrip | src/board/display.rs:87-96 | a printed en passant reads back exactly when the position makes it one |
| Display.PromotionNoRoundTrip | src/board/display.rs:87-96 | a printed promotion does not read back as a promotion |
| Display.MoveTextReadBack | src/board/display.rs:87-96 | a printed move reads back through the same squares |
| Render.GetEmptyBoard | src/board/display.rs:175-190 | the loop builds the empty board text |
| Render.EmptyBoardLayout | src/board/display.rs:175-190 | 128 ASCII characters: 8 lines of 16, rank labels 8 down to 1, and a light or dark cell per square |
| Render.DisplayPieces | src/board/display.rs:163-173 | the loop's result is the painted text |
| Render.PaintedCells | src/board/display.rs:163-173 | exactly the cells of set squares change, to the given character; nothing else changes |
| Render.PrintBitboard | src/board/display.rs:225-231 | 128 characters, '1' on set squares and '_' on the others, the frame kept |
| Render.GetBoard | src/board/display.rs:109-161 | the board text is the framed glyphs of the painted board |
| Render.PaintedBoardShows | src/board/display.rs:109-161 | a square holding one piece shows that piece's letter |
| Render.PaintedBoardVacant | src/board/display.rs:109-161 | an empty square shows its empty cell |
| Render.RenderedGlyphs | src/board/display.rs:109-161 | the replacement passes turn every character into its glyph |
| Render.GetCastlingInfo | src/board/display.rs:192-211 | the text built is the specification's |
| Render.InfoTextLetters | src/board/display.rs:192-211 | "Castling: " then each letter exactly when its right is set, and "-" exactly when none is |
| Render.CastlingInfoReadsBack | src/board/display.rs:192-211 | the info text read as a FEN castling field gives the value back |
| Options.Empty | src/uci/options.rs:17-29 | no field set and not infinite |
| Options.Depth | src/uci/options.rs:31-36 | only the depth is set |
| Options.Movetime | src/uci/options.rs:38-43 | only the move time is set |
| Options.Parse | src/uci/options.rs:45-86 | the token loop gives the specification's options |
| Options.ParseSkips | src/uci/options.rs:45-86 | an unknown token is skipped |
| Options.ParseInfinite | src/uci/options.rs:45-86 | infinite is set exactly when it was or the token occurs |
| Options.ParseDepthExample | src/evaluate/test.rs:115-151 | "go depth 5" gives depth 5 only |
| Options.ParseInfiniteExample | src/evaluate/test.rs:115-151 | "go infinite" sets only infinite |
| Options.TruncDiv | src/uci/options.rs:105-127 | division truncating toward zero: the remainder has the dividend's sign and is smaller than the divisor |
| Options.DefaultMovesToGo | src/uci/options.rs:112-116 | the corrected default: 40 minus half the half moves, but at least 10, for every half-move count |
| Options.UsizeAsIsize | src/uci/options.rs:115 | `as isize` keeps a `usize` below 2^63 and subtracts 2^64 from a larger one |
| Options.DefaultMovesToGoAsWritten | src/uci/options.rs:115 | the default as the source computes it, with the `usize` wrap-around and the cast written out; its result fits `isize` |
| Options.MovesToGoAsWritten | src/uci/options.rs:115 | the default as written equals the corrected one up to 40 full moves, and after that is 40 minus the full moves, below 0 |
| Options.MovesToGoWrapExample | src/uci/options.rs:115-135 | at half move 82 the default as written is -1; a minute on the clock gives a 500 ms budget, a second gives -1000, cast to 2^128 - 1000 |
| Options.BudgetBounds | src/uci/options.rs:128-134 | with more than 1000 ms the budget is at least 500 and below the time left |
| Options.BudgetShortClock | src/uci/options.rs:128-134 | with at most 1000 ms: a base budget below the time left is kept; otherwise the budget is time - 500 from 600 ms on, and 100 below that |
| Options.BudgetOf | src/uci/options.rs:104-134 | under the no-overflow conditions of the budget branch the budget fits `isize` |
| Options.BudgetExampleLong | src/evaluate/test.rs:165-179 | 300000 ms with 41 moves to go gives 7317 |
| Options.BudgetExampleShort | src/evaluate/test.rs:165-179 | 1234 ms with a 33 ms increment gives 500 |
| Options.ParseUciOptions | src/uci/options.rs:88-137 | the priority: infinite, then depth, then movetime, then the clock budget with the corrected default moves to go, else nothing |
| Evaluation.PiecesValueCounts | src/evaluate/evaluator.rs:536-552 | pop count times value, plus the bishop-pair bonus for exactly two bishops, negated for black |
| Evaluation.PiecesValueMirrored | src/evaluate/evaluator.rs:536-552 | on a mirrored board black's value is minus white's |
| Evaluation.MaterialMirrored | src/evaluate/evaluator.rs:536-552 | a mirrored board has material 0 |
| Evaluation.PieceSquareTableValue | src/evaluate/evaluator.rs:695-713 | the sum of the table over the set squares, negated for black |
| Evaluation.IsEndGame | src/evaluate/evaluator.rs:716-721 | exactly when no queens are left and the half-move number is at least 40 |
| Evaluation.EndGameNoQueens | src/evaluate/evaluator.rs:716-721 | in the end game both queen values are 0 |
| Evaluation.EndGameKingsOnly | src/evaluate/evaluator.rs:594-690 | only the king's table score depends on the end game |
| Evaluation.TableValueMirrored | src/evaluate/evaluator.rs:594-690 | on a mirrored board black's table score is minus white's |
| Evaluation.SquareTableScoreMirrored | src/evaluate/evaluator.rs:594-690 | a mirrored board's table score is 0 |
| Evaluation.GetSquareTableValues | src/evaluate/evaluator.rs:594-690 | the result is the table score of the board in its game phase |
| Evaluation.MobilityBounds | src/evaluate/evaluator.rs:554-592 | every move scores at least the silent value, with equality exactly for quiet lists |
| Evaluation.ScoreMoves | src/evaluate/evaluator.rs:554-592 | the loop sums the move scores |
| Evaluation.MobilityQuiet | src/evaluate/evaluator.rs:554-592 | for quiet lists mobility is the move count difference, signed by the side to move |
| Evaluation.GetMobilityValues | src/evaluate/evaluator.rs:554-592 | the specification's mobility; the position is restored |
| Evaluation.ScoreMirrored | src/evaluate/evaluator.rs:434-531 | on a mirrored board only mobility is left in the score |
| Evaluation.StaticEvaluation | src/evaluate/evaluator.rs:434-531 | a cached hash returns the cached value; otherwise the score, signed by the side to move, is computed and stored; the position is unchanged |
| Evaluation.MateScore | src/evaluate/evaluator.rs:776-794 | a mate found before the maximum depth scores negative |
| Evaluation.CheckMateOrStalemate | src/evaluate/evaluator.rs:776-794 | a score exactly while searching with no moves: the mate score in check, 0 otherwise; the position is restored |
| PieceSquareTables.Mirror | src/evaluate/piece_square_tables.rs:3 | the mirrored square keeps the file and flips the rank |
| PieceSquareTables.SquareTable | src/evaluate/piece_square_tables.rs:4-37 | each table has 64 entries |
| PieceSquareTables.SquareTableMirrored | src/evaluate/piece_square_tables.rs:4-37 | every black table is the rank mirror of its white table |
| PieceSquareTables.LateGameOnlyKing | src/evaluate/piece_square_tables.rs:12-18 | only the king's table depends on the late game |
| PieceSquareTables.SquareTableFallbacks | src/evaluate/piece_square_tables.rs:19-36 | an unknown piece gets the side's pawn table, an unknown side the black pawn table |
| PieceSquareTables.PawnTablesMirrored | src/evaluate/piece_square_tables.rs:40-60 | the black pawn table mirrors the white one |
| PieceSquareTables.KnightTablesMirrored | src/evaluate/piece_square_tables.rs:62-82 | the black knight table mirrors the white one |
| PieceSquareTables.BishopTablesMirrored | src/evaluate/piece_square_tables.rs:84-104 | the black bishop table mirrors the white one |
| PieceSquareTables.RookTablesMirrored | src/evaluate/piece_square_tables.rs:106-126 | the black rook table mirrors the white one |
| PieceSquareTables.QueenTablesMirrored | src/evaluate/piece_square_tables.rs:128-148 | the black queen table mirrors the white one |
| PieceSquareTables.KingBeginTablesMirrored | src/evaluate/piece_square_tables.rs:150-170 | the black opening king table mirrors the white one |
| PieceSquareTables.KingEndTablesMirrored | src/evaluate/piece_square_tables.rs:172-192 | the black end-game king table mirrors the white one |
| PieceSquareTables.PawnTablesZeroOnEdgeRanks | src/evaluate/piece_square_tables.rs:40-60 | both pawn tables are zero on ranks 1 and 8 |

## Left out

- The UCI protocol loop (`src/uci/protocol.rs`), `engine/src/main.rs` and the wasm front end: these are I/O, threads and foreign libraries.
- Search: `search`, `search_depth`, `alpha_beta`, `zero_width_search`, `quiesce` and the stop and time checks. They depend on the wall clock, stop signals and printing.
- The parallel branch of `perft` (src/board/utils.rs:91-125), which uses threads and a mutex.
- `Engine::apply_algebraic_move`: it only chains `algebraic_to_move` and `apply_move`, both of which are modelled.
- `current_best_move`: it is declared as an option but used as a ten-slot array. Search is its only user.
- The Zobrist key generator in `src/board/zobrist.rs` (a ChaCha random generator): the keys are abstract tables.
- How the incremental hash relates to `init_zobrist_key`: the two differ in general, because the side key is XORed in.
- The repeated-hash test (src/board/test.rs:261-272): from the start position it plays e2e4, e7e5, e4e2 and e5e7, plays e2e4 again, and expects the hash after the first e2e4. It needs the start position's concrete bitboards and keys, which are not computed. The hash arithmetic of those moves is covered for every board by `MoveEffects.QuietMoveHash` and `MoveEffects.DoublePushHash`.
- Collision-freedom of the magic numbers for all 64 squares and every subset: this is a brute-force computation. `Magic.MagicBitboard.BishopLookup` and `Magic.MagicBitboard.RookLookup` therefore take as a precondition that no later subset of the mask shares the subset's magic index.
- Concrete perft counts: 20, 400 and 8902 from the start position, and the start position's 20 pseudo-legal and legal moves. Evaluating the generator on a concrete board is beyond the verifier's budget.
- The concrete start position evaluating to 0, and the test with one black pawn missing. They are covered for every mirrored board by `Evaluation.MaterialMirrored`, `Evaluation.SquareTableScoreMirrored` and `Evaluation.ScoreMirrored`, where only mobility is left.
- The bitboards of the start FEN (0xFFFF and so on) are not computed. Only its fields and state are.
- `Display` for `Position` and `Engine`, and the small `get_move`, `get_en_passat` and `get_since_last_capture` string helpers.
- Integer widths are unbounded, except where they matter and are written out:
  - `usize` underflow becomes a precondition, except the defaulted moves to go, which is a finding below;
  - the `isize` overflow of the budget arithmetic is excluded by `Options.BudgetDefined` in `Options.ParseUciOptions`'s precondition;
  - the `u128` cast is modelled by `Options.ToU128`.
- Sort stability is not stated. The source's `sort_by` is stable, but only the order by value and the permutation are proved.
- Game.Position.ApplyMove: the model does not prove that `apply_move` keeps each side board the union of its piece boards for every move kind. This is proved for Normal moves (`MoveEffects.NormalMoveKeepsUnion`), and the generator's mode lemmas take it as the precondition `Consistent`.
- MakeUnmake.ApplyUndo: it requires that the move fits the board (`Fits`): its `from` holds the moving piece, and its `to` holds the captured piece or nothing. On a move that does not fit, clearing bits loses information, and the source does not restore the board either.
- Generator.IsCheck: the position is proved restored only for a move that fits the board. For any move, the result is still `Undone(Applied(p, mi), mi)`.
- Generator.IsLegal: the position is proved restored only when the restoring condition `Restores` holds: the move is a castle, or it fits the board.
- MoveCounting.Perft: it requires every generated move to be playable and undoable at every depth (`Ready`). The model does not prove this for every position.
- MoveCounting.GetOrderedMovesByKind: it requires every pseudo-legal move to be playable (`AllPlayable`).
- Generator.GetLegalMoves: it requires every pseudo-legal move to be playable (`AllPlayable`): the move's indices are in range, the mover's king survives it, and taking it back restores the board. This is not proved from `Consistent`. It fails on boards the parser accepts, such as a FEN whose en-passant square has no pawn behind it: taking back such a capture puts a pawn on the board that was never there.
- Options.ParseUciOptions: an `isize` overflow in the budget arithmetic is excluded by its precondition, which is where a debug build panics; the wrap-around of a release build is not modelled. It uses the corrected default moves to go (see Findings).
- MoveGenProperties.PseudoLegalKeepsKind: the mode lemmas require each side board to be the union of its piece boards (`Consistent`).
- MoveGenProperties.LegalMovesKeepKind: it also requires `Consistent`.
- Evaluation.MaterialMirrored: it is stated only for boards that are their own rank mirror with colours swapped (`MirroredBoard`), not for the concrete start position.
- Evaluation.ScoreMirrored: it is likewise stated only for a mirrored board.
- Engines.DrawByRepetition: it describes the repetition branch only, at a counter of 50 or less; `Engines.FiftyMoveDraw` covers the rest.
- Options.BudgetBounds: it requires more than 1000 ms on the clock, the case in which the source raises a low budget to 500.
- Fen.FenToPosition: it requires a well-formed FEN (`FenOk`), because the source panics on `unwrap` otherwise.
- Render.PaintedBoardShows: it requires that only one piece board holds the square (`Alone`), since later passes overwrite earlier ones.
- Evaluation.GetSquareTableValues: the game phase picks the king table, and the other tables ignore it (`PieceSquareTables.LateGameOnlyKing`).

## Findings

| source | as written | input that shows it | evidently intended | confidence | as-written member | corrected member |
|---|---|---|---|---|---|---|
| src/uci/options.rs:115 | `cmp::max(40 - (halfmovesnumbers / 2), 10) as isize`, a `usize` subtraction; src/evaluate/evaluator.rs:52 passes the position's half-move number | half move 82: the difference wraps to 2^64 - 1, the maximum keeps it, and the cast gives -1 moves to go. With 60000 ms the budget is 60000 / -1 = -60000, raised to 500; with 1000 ms it stays -1000, and `as u128` makes it 2^128 - 1000 ms (a debug build panics at the subtraction) | at least 10 moves to go at any point of the game | high; not executed | Options.DefaultMovesToGoAsWritten, Options.MovesToGoWrapExample | Options.DefaultMovesToGo |
