/**
 * The engine's 64-entry constant tables are written rank by rank, a1..h1 first.
 * `Ranks` glues eight ranks into one table and `Rank` reads one back, so a proof
 * about a constant table can work on its eight literal ranks.
 */
module Tables {
  function Ranks<T>(rank1: seq<T>, rank2: seq<T>, rank3: seq<T>, rank4: seq<T>,
                    rank5: seq<T>, rank6: seq<T>, rank7: seq<T>, rank8: seq<T>): (t: seq<T>)
    requires |rank1| == 8 && |rank2| == 8 && |rank3| == 8 && |rank4| == 8
    requires |rank5| == 8 && |rank6| == 8 && |rank7| == 8 && |rank8| == 8
    ensures |t| == 64
    ensures t[0..8] == rank1 && t[8..16] == rank2 && t[16..24] == rank3 && t[24..32] == rank4
    ensures t[32..40] == rank5 && t[40..48] == rank6 && t[48..56] == rank7 && t[56..64] == rank8
  {
    rank1 + rank2 + rank3 + rank4 + rank5 + rank6 + rank7 + rank8
  }

  /** Rank `r` (0 = rank 1) of table `t`. */
  function Rank<T>(t: seq<T>, r: nat): (row: seq<T>)
    requires |t| == 64 && r < 8
    ensures |row| == 8
    ensures forall c :: 0 <= c < 8 ==> row[c] == t[8 * r + c]
  {
    t[8 * r..8 * r + 8]
  }

  /** The eight values of `f` from `base` on. */
  function Eight<T>(f: nat -> T, base: nat): (row: seq<T>)
    ensures |row| == 8
  {
    [f(base), f(base + 1), f(base + 2), f(base + 3), f(base + 4), f(base + 5), f(base + 6), f(base + 7)]
  }

  lemma PickOfEight<T>(f: nat -> T, base: nat, c: nat)
    requires c < 8
    ensures Eight(f, base)[c] == f(base + c)
  {
    if c == 0 {} else if c == 1 {} else if c == 2 {} else if c == 3 {}
    else if c == 4 {} else if c == 5 {} else if c == 6 {} else {}
  }

  /** A table whose every rank holds the values of `f` at its squares is `f` square by square. */
  lemma RanksAgree<T>(t: seq<T>, f: nat -> T, i: nat)
    requires |t| == 64 && i < 64
    requires forall r: nat :: r < 8 ==> Rank(t, r) == Eight(f, 8 * r)
    ensures t[i] == f(i)
  {
    var r, c := i / 8, i % 8;
    PickOfEight(f, 8 * r, c);
    assert Rank(t, r)[c] == t[8 * r + c];
  }
}
