/** Sums of counts over a sequence, independent of its order. */
module Sums {
  /** The elements of `s` counted by `f` and added up. */
  function Sum<T>(s: seq<T>, f: T -> nat): nat
  {
    if s == [] then 0 else f(s[0]) + Sum(s[1..], f)
  }

  /** Taking one element out of the sequence takes its count out of the sum. */
  lemma {:induction false} SumRemove<T>(s: seq<T>, k: nat, f: T -> nat)
    requires k < |s|
    ensures Sum(s, f) == f(s[k]) + Sum(s[..k] + s[k + 1..], f)
  {
    var rest := s[..k] + s[k + 1..];
    if k == 0 {
      assert rest == s[1..];
    } else {
      var tail := s[1..];
      SumRemove(tail, k - 1, f);
      assert tail[k - 1] == s[k];
      assert rest[0] == s[0];
      assert rest[1..] == tail[..k - 1] + tail[k..];
    }
  }

  /** The sum does not depend on the order of the elements. */
  lemma {:induction false} SumPermutation<T>(s: seq<T>, t: seq<T>, f: T -> nat)
    requires multiset(s) == multiset(t)
    ensures Sum(s, f) == Sum(t, f)
    decreases |s|
  {
    if s == [] {
      assert |multiset(t)| == 0;
    } else {
      var x := s[0];
      assert x in multiset(t);
      var k :| 0 <= k < |t| && t[k] == x;
      var rest := t[..k] + t[k + 1..];
      assert t == t[..k] + [x] + t[k + 1..];
      assert s == [x] + s[1..];
      assert multiset(t) == multiset(t[..k]) + multiset{x} + multiset(t[k + 1..]);
      assert multiset(rest) == multiset(t[..k]) + multiset(t[k + 1..]);
      assert multiset(s) == multiset{x} + multiset(s[1..]);
      assert multiset(rest) == multiset(t) - multiset{x};
      assert multiset(s[1..]) == multiset(s) - multiset{x};
      SumRemove(t, k, f);
      SumPermutation(s[1..], rest, f);
    }
  }

  /** The sum from `i` on peels off its first element. */
  lemma SumStep<T>(s: seq<T>, i: nat, f: T -> nat)
    requires i < |s|
    ensures Sum(s[i..], f) == f(s[i]) + Sum(s[i + 1..], f)
  {
    assert s[i..][1..] == s[i + 1..];
  }
}

/**
 * Move ordering for a whole position (`get_ordered_moves_by_kind`, movegen/generator.rs)
 * and the sequential branch of `perft` (board/utils.rs): the number of move sequences
 * of a given length, counted by playing each legal move, counting below it and taking
 * it back.
 */
module MoveCounting {
  import opened Wrappers
  import opened Models
  import opened MakeUnmake
  import opened Game
  import opened Generator
  import opened Ordering
  import opened Engines
  import opened Sums

  /**
   * `get_ordered_moves_by_kind`: the legal moves of the engine's position, ordered by
   * `get_value`, highest first. The position is given back as it was.
   */
  method GetOrderedMovesByKind(lk: Lookups, e: Engine, kind: MoveGenKind) returns (moves: seq<MoveInfo>)
    requires e.position.Valid() && e.position.board.pieces[e.position.sideToMove][KING] != 0
    requires AllPlayable(e.position.Value(), PseudoLegal(lk, e.position.Value(), kind))
    modifies e.position
    ensures multiset(moves) == multiset(LegalMoves(lk, old(e.position.Value()), kind))
    ensures Descending(moves)
    ensures e.position.Value() == old(e.position.Value())
  {
    var legal := GetLegalMoves(lk, e.position, kind);
    var a := new MoveInfo[|legal|](i requires 0 <= i < |legal| => legal[i]);
    assert a[..] == legal;
    SortMoves(a);
    moves := a[..];
  }

  /**
   * What `perft` to `depth` needs of a position and of every position it reaches: the
   * mover's king on the board and moves `is_legal` can test (depth 0 needs nothing),
   * and below depth 1, legal moves whose board effect fits, so that `undo_move` gives
   * each position back.
   */
  ghost predicate Ready(lk: Lookups, p: PositionValue, depth: nat)
    decreases depth, 0
  {
    depth == 0 ||
    (&& Generable(p)
     && AllPlayable(p, PseudoLegal(lk, p, All))
     && (depth > 1 ==> ChildrenReady(lk, p, LegalMoves(lk, p, All), depth - 1)))
  }

  /** The mover's king is on the board, as move generation needs. */
  predicate Generable(p: PositionValue)
  {
    WellFormed(p) && p.board.pieces[p.sideToMove][KING] != 0
  }

  /** Every move of `ms` can be played from `p` and leads to a position ready for `depth`. */
  ghost predicate ChildrenReady(lk: Lookups, p: PositionValue, ms: seq<MoveInfo>, depth: nat)
    decreases depth, 2
  {
    forall mi | mi in ms :: ChildPlayable(lk, p, mi, depth)
  }

  /** `mi` can be played from `p` and taken back, and leads to a position ready for `depth`. */
  ghost predicate ChildPlayable(lk: Lookups, p: PositionValue, mi: MoveInfo, depth: nat)
    decreases depth, 1
  {
    Applicable(p, mi) && Fits(p.board, p.sideToMove, mi) && Ready(lk, Applied(p, mi), depth)
  }

  lemma ReadyParts(lk: Lookups, p: PositionValue, depth: nat)
    requires Ready(lk, p, depth) && depth > 0
    ensures Generable(p) && AllPlayable(p, PseudoLegal(lk, p, All))
    ensures depth > 1 ==> ChildrenReady(lk, p, LegalMoves(lk, p, All), depth - 1)
  {
  }

  lemma ChildReady(lk: Lookups, p: PositionValue, ms: seq<MoveInfo>, depth: nat, mi: MoveInfo)
    requires ChildrenReady(lk, p, ms, depth) && mi in ms
    ensures ChildPlayable(lk, p, mi, depth)
  {
  }

  /** The perft number: 0 at depth 0, the legal moves at depth 1, the sum over them below. */
  ghost function PerftCount(lk: Lookups, p: PositionValue, depth: nat): nat
    decreases depth, 0
  {
    if depth == 0 || !Generable(p) then 0
    else if depth == 1 then |LegalMoves(lk, p, All)|
    else Sum(LegalMoves(lk, p, All), Counter(lk, p, depth - 1))
  }

  /** The perft number to `depth` of the position after each move (0 for one that cannot be played). */
  ghost function Counter(lk: Lookups, p: PositionValue, depth: nat): MoveInfo -> nat
    decreases depth, 2
  {
    mi => Child(lk, p, depth, mi)
  }

  ghost function Child(lk: Lookups, p: PositionValue, depth: nat, mi: MoveInfo): nat
    decreases depth, 1
  {
    if Applicable(p, mi) then PerftCount(lk, Applied(p, mi), depth) else 0
  }

  /**
   * The sequential branch of `perft`: 0 at depth 0, the number of legal moves at depth 1,
   * and below that, for each ordered move, play it, count to one depth less and take it
   * back. The count is the perft number, and the position ends as it started.
   */
  method Perft(lk: Lookups, e: Engine, depth: nat) returns (n: nat)
    requires e.position.Valid() && Ready(lk, e.position.Value(), depth)
    modifies e.position
    ensures n == PerftCount(lk, old(e.position.Value()), depth)
    ensures e.position.Value() == old(e.position.Value())
    decreases depth, 0
  {
    if depth == 0 {
      return 0;
    }
    ghost var p := e.position.Value();
    ReadyParts(lk, p, depth);
    var moves := GetOrderedMovesByKind(lk, e, All);
    ghost var legal := LegalMoves(lk, p, All);
    assert |moves| == |multiset(moves)| == |legal|;
    if depth == 1 {
      return |moves|;
    }
    ChildrenReadyPermuted(lk, p, legal, moves, depth - 1);
    n := PerftChildren(lk, e, moves, depth - 1);
    SumPermutation(legal, moves, Counter(lk, p, depth - 1));
    PerftUnfold(lk, p, depth);
  }

  /** Below depth 1 the perft number is the sum over the legal moves. */
  lemma PerftUnfold(lk: Lookups, p: PositionValue, depth: nat)
    requires depth > 1 && Generable(p)
    ensures PerftCount(lk, p, depth) == Sum(LegalMoves(lk, p, All), Counter(lk, p, depth - 1))
  {
  }

  /** Readiness is about the set of moves, not their order. */
  lemma ChildrenReadyPermuted(lk: Lookups, p: PositionValue, ms: seq<MoveInfo>, ns: seq<MoveInfo>, depth: nat)
    requires ChildrenReady(lk, p, ms, depth) && multiset(ms) == multiset(ns)
    ensures ChildrenReady(lk, p, ns, depth)
  {
    forall mi | mi in ns
      ensures mi in ms
    {
      assert mi in multiset(ns);
    }
  }

  /** `perft`'s loop over the ordered moves: the counts below each move, added up. */
  method PerftChildren(lk: Lookups, e: Engine, moves: seq<MoveInfo>, depth: nat) returns (n: nat)
    requires e.position.Valid() && ChildrenReady(lk, e.position.Value(), moves, depth)
    modifies e.position
    ensures n == Sum(moves, Counter(lk, old(e.position.Value()), depth))
    ensures e.position.Value() == old(e.position.Value())
    decreases depth, 2
  {
    ghost var p := e.position.Value();
    ghost var f := Counter(lk, p, depth);
    hide LegalMoves, PerftCount, Ready, Applied, Sum, Counter, ChildrenReady, ChildPlayable, Child;
    n := 0;
    var i := 0;
    while i < |moves|
      invariant 0 <= i <= |moves|
      invariant e.position.Valid() && e.position.Value() == p
      invariant n + Sum(moves[i..], f) == Sum(moves, f)
    {
      var mi := moves[i];
      SumStep(moves, i, f);
      ChildReady(lk, p, moves, depth, mi);
      var count := PerftChild(lk, e, mi, depth);
      CounterChild(lk, p, depth, mi);
      n := n + count;
      i := i + 1;
    }
  }

  lemma CounterChild(lk: Lookups, p: PositionValue, depth: nat, mi: MoveInfo)
    ensures Counter(lk, p, depth)(mi) == Child(lk, p, depth, mi)
  {
  }

  /** One step of `perft`'s loop: play the move, count below it, take it back. */
  method PerftChild(lk: Lookups, e: Engine, mi: MoveInfo, depth: nat) returns (count: nat)
    requires e.position.Valid() && ChildPlayable(lk, e.position.Value(), mi, depth)
    modifies e.position
    ensures count == Child(lk, old(e.position.Value()), depth, mi)
    ensures e.position.Value() == old(e.position.Value())
    decreases depth, 1
  {
    var pos := e.position;
    ghost var p := pos.Value();
    ApplyUndo(p, mi);
    ghost var q := Applied(p, mi);
    hide Applied, Undone, Ready, PerftCount, Fits, Undoable, WellFormed;
    pos.ApplyMove(mi);
    assert pos.Value() == q;
    count := Perft(lk, e, depth);
    assert count == PerftCount(lk, q, depth);
    pos.UndoMove(mi);
  }
}
