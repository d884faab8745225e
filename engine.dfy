/**
 * The `Engine` of board/models.rs: a position together with the stack of hashes of the
 * positions played (`hash_history`), the incrementally kept material score
 * (`static_eval`) and the draw test for the fifty-move rule and threefold repetition
 * (FIDE Laws of Chess, Articles 9.2 and 9.3, as the code approximates them).
 */
module Engines {
  import opened Wrappers
  import opened Models
  import opened Values
  import opened Game

  /** The centipawn value `update_static_eval` gives a captured piece (0 for an unknown index). */
  function CapturedValue(piece: nat): (v: int)
    ensures v >= 0
  {
    if piece == PAWN then PAWN_VALUE
    else if piece == KNIGHT then KNIGHT_VALUE
    else if piece == BISHOP then BISHOP_VALUE
    else if piece == ROOK then ROOK_VALUE
    else if piece == QUEEN then QUEEN_VALUE
    else if piece == KING then KING_VALUE
    else 0
  }

  /** What a promotion gains: the new piece's value minus a pawn's (a king or pawn counts 0). */
  function PromotionGain(piece: nat): (v: int)
    ensures v >= -PAWN_VALUE
  {
    (if piece == KNIGHT then KNIGHT_VALUE
     else if piece == BISHOP then BISHOP_VALUE
     else if piece == ROOK then ROOK_VALUE
     else if piece == QUEEN then QUEEN_VALUE
     else 0) - PAWN_VALUE
  }

  /** White's gains count up, black's down, any other side index not at all. */
  function Signed(side: nat, v: int): (r: int)
    ensures side == WHITE ==> r == v
    ensures side == BLACK ==> r == -v
    ensures side >= 2 ==> r == 0
  {
    if side == WHITE then v else if side == BLACK then -v else 0
  }

  /** `update_static_eval` needs a score to update whenever the move captures or promotes. */
  predicate EvalUpdatable(e: Option<int>, mi: MoveInfo)
  {
    e.Some? || (mi.capturedPiece.None? && !mi.m.Promotion?)
  }

  /**
   * `update_static_eval` with `side` to move: the captured piece's value, then the
   * promotion gain, each signed by the side to move; a quiet move changes nothing.
   */
  function UpdatedEval(e: Option<int>, side: nat, mi: MoveInfo): (r: Option<int>)
    requires EvalUpdatable(e, mi)
    ensures r.Some? <==> e.Some?
    ensures r.Some? && mi.capturedPiece.None? && !mi.m.Promotion? ==> r == e
  {
    var afterCapture :=
      if mi.capturedPiece.Some? then Some(e.value + Signed(side, CapturedValue(mi.capturedPiece.value))) else e;
    if mi.m.Promotion? then Some(afterCapture.value + Signed(side, PromotionGain(mi.m.promoted))) else afterCapture
  }

  /**
   * Undoing a move updates the score with the other side to move, which cancels the
   * update made when the move was applied.
   */
  lemma UpdateCancels(e: int, side: nat, mi: MoveInfo)
    requires side < 2
    ensures UpdatedEval(UpdatedEval(Some(e), side, mi), Opposite(side), mi) == Some(e)
  {
  }

  /** The last `n` entries of `h` (all of them when there are fewer). */
  function Window<T>(h: seq<T>, n: nat): (w: seq<T>)
    ensures |w| == if n < |h| then n else |h|
    ensures forall i :: 0 <= i < |w| ==> w[i] == h[|h| - |w| + i]
  {
    if n < |h| then h[|h| - n..] else h
  }

  /**
   * `check_draw_coditions`: more than 50 half moves without a capture or pawn move, or at
   * least 8 of them and the latest hash seen at least three times among the last
   * counter + 1 entries of the history.
   */
  predicate DrawConditions(counter: nat, h: seq<bv64>)
  {
    counter > 50 || (counter >= 8 && |h| > 0 && Occurrences(Window(h, counter + 1), h[|h| - 1]) >= 3)
  }

  /**
   * Below the fifty-move bound a draw needs at least 8 half moves without a capture or
   * pawn move and three copies of the latest hash, so at least three history entries.
   */
  lemma DrawByRepetition(counter: nat, h: seq<bv64>)
    requires counter <= 50 && DrawConditions(counter, h)
    ensures counter >= 8 && |h| >= 3
    ensures Occurrences(Window(h, counter + 1), h[|h| - 1]) >= 3
  {
  }

  /** With the counter above 50 the result is a draw whatever the history holds. */
  lemma FiftyMoveDraw(counter: nat, h: seq<bv64>)
    requires counter > 50
    ensures DrawConditions(counter, h)
  {
  }

  /** How many entries of `s` equal `x`, counted from the front. */
  function Occurrences<T(==)>(s: seq<T>, x: T): (c: nat)
    ensures c <= |s|
  {
    if |s| == 0 then 0 else (if s[0] == x then 1 else 0) + Occurrences(s[1..], x)
  }

  lemma OccurrencesStep<T>(h: seq<T>, j: nat, x: T)
    requires j < |h|
    ensures Occurrences(h[j..], x) == (if h[j] == x then 1 else 0) + Occurrences(h[j + 1..], x)
  {
    assert h[j..][1..] == h[j + 1..];
  }

  /** A longer suffix holds at least as many copies of any value. */
  lemma {:induction false} SuffixOccurrences<T>(h: seq<T>, i: nat, j: nat, x: T)
    requires i <= j <= |h|
    ensures Occurrences(h[i..], x) >= Occurrences(h[j..], x)
    decreases j - i
  {
    if i < j {
      SuffixOccurrences(h, i + 1, j, x);
      assert h[i..][1..] == h[i + 1..];
    }
  }

  class Engine {
    var position: Position
    var hashHistory: seq<bv64>
    var isSearching: bool
    var staticEval: Option<int>
    /** `zobrist_evaluation_table`: static scores cached by hash. */
    var evaluationTable: map<bv64, int>

    /** `Engine::from_position`: nothing played, nothing cached, not searching. */
    constructor FromPosition(position: Position)
      ensures this.position == position
      ensures hashHistory == [] && !isSearching && staticEval == None && evaluationTable == map[]
    {
      this.position := position;
      hashHistory := [];
      isSearching := false;
      staticEval := None;
      evaluationTable := map[];
    }

    /**
     * `Engine::apply_move`: updates the kept score (or starts it at `material`, the value
     * `evaluate_material` would give), plays the move and pushes the new hash.
     */
    method ApplyMove(mi: MoveInfo, material: int)
      requires position.Valid() && MoveInRange(position.sideToMove, mi)
      modifies this, position
      ensures position == old(position)
      ensures position.Value() == Applied(old(position.Value()), mi)
      ensures hashHistory == old(hashHistory) + [position.zobrist]
      ensures staticEval == if old(staticEval).Some? then UpdatedEval(old(staticEval), old(position.sideToMove), mi) else Some(material)
      ensures isSearching == old(isSearching) && evaluationTable == old(evaluationTable)
    {
      hide Applied, UpdatedEval;
      if staticEval.Some? {
        UpdateStaticEval(mi);
      } else {
        staticEval := Some(material);
      }
      position.ApplyMove(mi);
      hashHistory := hashHistory + [position.zobrist];
    }

    /**
     * `Engine::undo_move`: updates the kept score with the side now to move, takes the
     * move back and pops the latest hash (popping an empty history does nothing).
     */
    method UndoMove(mi: MoveInfo)
      requires position.Valid() && Undoable(position.Value(), mi) && EvalUpdatable(staticEval, mi)
      modifies this, position
      ensures position == old(position)
      ensures position.Value() == Undone(old(position.Value()), mi)
      ensures hashHistory == if |old(hashHistory)| > 0 then old(hashHistory)[..|old(hashHistory)| - 1] else []
      ensures staticEval == UpdatedEval(old(staticEval), old(position.sideToMove), mi)
      ensures isSearching == old(isSearching) && evaluationTable == old(evaluationTable)
    {
      hide Undone, UpdatedEval;
      UpdateStaticEval(mi);
      position.UndoMove(mi);
      if |hashHistory| > 0 {
        hashHistory := hashHistory[..|hashHistory| - 1];
      }
    }

    /** `update_static_eval`: what `UpdatedEval` says, with the side to move now. */
    method UpdateStaticEval(mi: MoveInfo)
      requires EvalUpdatable(staticEval, mi)
      modifies this
      ensures staticEval == UpdatedEval(old(staticEval), position.sideToMove, mi)
      ensures position == old(position) && hashHistory == old(hashHistory)
      ensures isSearching == old(isSearching) && evaluationTable == old(evaluationTable)
    {
      var side := position.sideToMove;
      if mi.capturedPiece.Some? {
        staticEval := Some(staticEval.value + Signed(side, CapturedValue(mi.capturedPiece.value)));
      }
      if mi.m.Promotion? {
        staticEval := Some(staticEval.value + Signed(side, PromotionGain(mi.m.promoted)));
      }
    }

    /**
     * `check_draw_coditions`: the fifty-move test, then the repetition count over at most
     * counter + 1 entries of the history.
     */
    method CheckDrawConditions() returns (draw: bool)
      ensures draw == DrawConditions(position.state.sinceLastCaptureOrPawnMovement, hashHistory)
    {
      var counter := position.state.sinceLastCaptureOrPawnMovement;
      if counter > 50 {
        return true;
      }
      if counter >= 8 && |hashHistory| > 0 {
        draw := RepeatedThrice(hashHistory, counter + 1);
        return draw;
      }
      return false;
    }
  }

  /**
   * The repetition loop of `check_draw_coditions`: walks the history backwards from the
   * latest hash over at most `n` entries, counting copies of the latest hash, and stops
   * at the third.
   */
  method RepeatedThrice<T(==)>(h: seq<T>, n: nat) returns (r: bool)
    requires |h| > 0
    ensures r <==> Occurrences(Window(h, n), h[|h| - 1]) >= 3
  {
    hide Window, Occurrences;
    var len := |h|;
    var thisPosition := h[len - 1];
    var take := if n < len then n else len;
    assert Window(h, n) == h[len - take..];
    var timesRepeated := 0;
    var j := len;
    while j > len - take
      invariant len - take <= j <= len
      invariant timesRepeated == Occurrences(h[j..], thisPosition) && timesRepeated < 3
    {
      j := j - 1;
      OccurrencesStep(h, j, thisPosition);
      if h[j] == thisPosition {
        timesRepeated := timesRepeated + 1;
      }
      if timesRepeated >= 3 {
        SuffixOccurrences(h, len - take, j, thisPosition);
        return true;
      }
    }
    return false;
  }
}
