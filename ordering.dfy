// Heuristic move ordering of movegen/generator.rs: `MoveInfo::get_value` and `sort_moves`.

module Ordering {
  import opened Wrappers
  import opened Models

  /**
   * The ordering score of a move: promotions first (9999), then castling (99), then
   * captures ranked by the captured piece (bigger is better) minus the moving piece,
   * and quiet moves by their piece index.
   */
  function GetValue(mi: MoveInfo): (v: int)
    ensures mi.m.Promotion? ==> v == 9999
    ensures mi.m.Castle? ==> v == 99
    ensures !mi.m.Promotion? && !mi.m.Castle? && mi.capturedPiece.Some? ==>
              v == 100 + (mi.capturedPiece.value + 10) - mi.piece
    ensures !mi.m.Promotion? && !mi.m.Castle? && mi.capturedPiece.None? ==> v == mi.piece
  {
    match mi.m
    case Promotion(_, _, _) => 9999
    case Castle(_) => 99
    case _ =>
      if mi.capturedPiece.Some? then 100 + (mi.capturedPiece.value + 10) - mi.piece
      else mi.piece
  }

  /** The piece indices are those of the six chess pieces. */
  predicate SmallPieces(mi: MoveInfo)
  {
    mi.piece < 6 && (mi.capturedPiece.Some? ==> mi.capturedPiece.value < 6)
  }

  /** The four classes of move, in the order `get_value` ranks them. */
  function Rank(mi: MoveInfo): (r: nat)
    ensures r < 4
  {
    if mi.m.Promotion? then 3
    else if !mi.m.Castle? && mi.capturedPiece.Some? then 2
    else if mi.m.Castle? then 1
    else 0
  }

  /**
   * With real piece indices the score separates the classes: every promotion beats
   * every capture, every capture beats castling, castling beats every quiet move.
   */
  lemma ValueRanks(a: MoveInfo, b: MoveInfo)
    requires SmallPieces(a) && SmallPieces(b)
    ensures Rank(a) > Rank(b) ==> GetValue(a) > GetValue(b)
    ensures GetValue(a) > GetValue(b) ==> Rank(a) >= Rank(b)
  {
  }

  /** Captures of bigger pieces by smaller pieces score higher. */
  lemma CaptureOrder(a: MoveInfo, b: MoveInfo)
    requires !a.m.Promotion? && !a.m.Castle? && a.capturedPiece.Some?
    requires !b.m.Promotion? && !b.m.Castle? && b.capturedPiece.Some?
    requires a.capturedPiece.value >= b.capturedPiece.value && a.piece <= b.piece
    ensures GetValue(a) >= GetValue(b)
    ensures a.capturedPiece.value > b.capturedPiece.value && a.piece <= b.piece ==> GetValue(a) > GetValue(b)
  {
  }

  /** Highest score first. */
  ghost predicate Descending(s: seq<MoveInfo>)
  {
    forall k, l :: 0 <= k < l < |s| ==> GetValue(s[k]) >= GetValue(s[l])
  }

  /** In a list ordered by score, no move of a lower class precedes one of a higher class. */
  lemma DescendingByRank(s: seq<MoveInfo>, k: nat, l: nat)
    requires Descending(s) && k < l < |s|
    requires SmallPieces(s[k]) && SmallPieces(s[l])
    ensures Rank(s[k]) >= Rank(s[l])
  {
    ValueRanks(s[l], s[k]);
  }

  /**
   * `sort_moves`: orders the moves in place by `get_value`, highest first. It is an
   * insertion sort by adjacent swaps of strictly smaller neighbours, so it is stable,
   * like the library sort it stands for.
   */
  method SortMoves(a: array<MoveInfo>)
    modifies a
    ensures Descending(a[..])
    ensures multiset(a[..]) == multiset(old(a[..]))
  {
    var i := 0;
    while i < a.Length
      invariant 0 <= i <= a.Length
      invariant Descending(a[..i])
      invariant multiset(a[..]) == multiset(old(a[..]))
    {
      Insert(a, i);
      i := i + 1;
    }
    assert a[..i] == a[..];
  }

  /** One insertion step: sinks `a[i]` into the ordered prefix `a[..i]`. */
  method Insert(a: array<MoveInfo>, i: nat)
    requires i < a.Length && Descending(a[..i])
    modifies a
    ensures Descending(a[..i + 1])
    ensures multiset(a[..]) == multiset(old(a[..]))
  {
    hide GetValue, Descending;
    var j := i;
    ShortDescending(a[i..i + 1]);
    while 0 < j && GetValue(a[j - 1]) < GetValue(a[j])
      invariant 0 <= j <= i
      invariant multiset(a[..]) == multiset(old(a[..]))
      invariant Descending(a[..j])
      invariant Descending(a[j..i + 1])
      invariant 0 < j < i ==> GetValue(a[j - 1]) >= GetValue(a[j + 1])
    {
      ghost var before := a[..];
      a[j - 1], a[j] := a[j], a[j - 1];
      SwapPermutes(before, a[..], j);
      SinkStep(before, a[..], i, j);
      j := j - 1;
    }
    ghost var s := a[..i + 1];
    assert s[..j] == a[..j] && s[j..] == a[j..i + 1];
    JoinDescending(s, j);
  }

  /** A sequence of at most one move is ordered. */
  lemma ShortDescending(s: seq<MoveInfo>)
    requires |s| <= 1
    ensures Descending(s)
  {
  }

  /** Swapping two neighbours keeps the same moves. */
  lemma SwapPermutes(s: seq<MoveInfo>, t: seq<MoveInfo>, j: nat)
    requires 0 < j < |s| && t == s[j - 1 := s[j]][j := s[j - 1]]
    ensures multiset(t) == multiset(s)
  {
  }

  /** Swapping a smaller element past the head of an ordered segment extends the segment by one. */
  lemma SinkStep(s: seq<MoveInfo>, t: seq<MoveInfo>, i: nat, j: nat)
    requires 0 < j <= i < |s| && t == s[j - 1 := s[j]][j := s[j - 1]]
    requires Descending(s[..j]) && Descending(s[j..i + 1])
    requires j < i ==> GetValue(s[j - 1]) >= GetValue(s[j + 1])
    requires GetValue(s[j - 1]) < GetValue(s[j])
    ensures Descending(t[..j - 1]) && Descending(t[j - 1..i + 1])
    ensures 1 < j ==> GetValue(t[j - 2]) >= GetValue(t[j])
  {
    assert t[..j - 1] == s[..j - 1];
    var u := t[j - 1..i + 1];
    var w := s[j..i + 1];
    forall k, l | 0 <= k < l < |u|
      ensures GetValue(u[k]) >= GetValue(u[l])
    {
      if l > 1 {
        assert u[l] == w[l - 1];
        if k == 0 {
          assert u[k] == w[0];
        } else if k == 1 {
          assert GetValue(w[1]) >= GetValue(w[l - 1]);
        } else {
          assert u[k] == w[k - 1];
        }
      }
    }
  }

  /** Two ordered segments whose boundary is ordered form one ordered sequence. */
  lemma JoinDescending(s: seq<MoveInfo>, j: nat)
    requires j <= |s| && Descending(s[..j]) && Descending(s[j..])
    requires 0 < j < |s| ==> GetValue(s[j - 1]) >= GetValue(s[j])
    ensures Descending(s)
  {
    forall k, l | 0 <= k < l < |s|
      ensures GetValue(s[k]) >= GetValue(s[l])
    {
      if k < j <= l {
        assert GetValue(s[k]) >= GetValue(s[j - 1]) by { assert s[..j][k] == s[k] && s[..j][j - 1] == s[j - 1]; }
        assert GetValue(s[j]) >= GetValue(s[l]) by { assert s[j..][0] == s[j] && s[j..][l - j] == s[l]; }
      } else if l < j {
        assert s[..j][k] == s[k] && s[..j][l] == s[l];
      } else {
        assert s[j..][k - j] == s[k] && s[j..][l - j] == s[l];
      }
    }
  }
}
