/**
 * The options of the UCI `go` command (uci/options.rs): the parser that walks the
 * space-separated tokens, and the choice of search depth and time budget from them.
 * Machine integers are unbounded here; the `isize` range is kept where the source
 * parses, and the `as u128` casts of a time are written out.
 */
module Options {
  import opened Wrappers

  const ISIZE_MIN: int := -0x8000_0000_0000_0000
  const ISIZE_MAX: int := 0x7FFF_FFFF_FFFF_FFFF
  const USIZE_MAX: int := 0xFFFF_FFFF_FFFF_FFFF
  const U128: int := 0x1_0000_0000_0000_0000_0000_0000_0000_0000
  const WHITE: nat := 0
  const BLACK: nat := 1
  const MAX_DEPTH: nat := 99

  datatype GoOptions = GoOptions(
    movetime: Option<int>,
    wtime: Option<int>,
    btime: Option<int>,
    winc: Option<int>,
    binc: Option<int>,
    movestogo: Option<int>,
    depth: Option<nat>,
    infinite: bool)

  /** `GoOptions::empty`: no option given. */
  function Empty(): (r: GoOptions)
    ensures r.movetime.None? && r.wtime.None? && r.btime.None? && r.winc.None? && r.binc.None?
    ensures r.movestogo.None? && r.depth.None? && !r.infinite
  {
    GoOptions(None, None, None, None, None, None, None, false)
  }

  /** `GoOptions::depth`: only the depth is set. */
  function Depth(depth: nat): (r: GoOptions)
    ensures r.depth == Some(depth) && r.(depth := None) == Empty()
  {
    Empty().(depth := Some(depth))
  }

  /** `GoOptions::movetime`: only the move time is set. */
  function Movetime(movetime: int): (r: GoOptions)
    ensures r.movetime == Some(movetime) && r.(movetime := None) == Empty()
  {
    Empty().(movetime := Some(movetime))
  }

  // ---- Tokens ----

  /** `str::split(' ')`: the pieces between single spaces, empty ones included. */
  function Split(s: string): (r: seq<string>)
    ensures |r| > 0
  {
    if |s| == 0 then [""]
    else
      var rest := Split(s[1..]);
      if s[0] == ' ' then [""] + rest
      else [[s[0]] + rest[0]] + rest[1..]
  }

  /** The tokens put back together, one space between neighbours. */
  function Join(tokens: seq<string>): string
  {
    if |tokens| == 0 then ""
    else if |tokens| == 1 then tokens[0]
    else tokens[0] + " " + Join(tokens[1..])
  }

  predicate NoSpace(t: string)
  {
    forall i :: 0 <= i < |t| ==> t[i] != ' '
  }

  /** Splitting loses nothing: the tokens hold no space, and joining them gives the command back. */
  lemma {:induction false} SplitJoin(s: string)
    ensures Join(Split(s)) == s
    ensures forall i :: 0 <= i < |Split(s)| ==> NoSpace(Split(s)[i])
  {
    if |s| > 0 {
      var rest := Split(s[1..]);
      SplitJoin(s[1..]);
      if s[0] == ' ' {
        assert Split(s) == [""] + rest;
        assert s == [s[0]] + s[1..];
      } else {
        var head := [s[0]] + rest[0];
        assert Split(s) == [head] + rest[1..];
        assert NoSpace(head) by {
          assert NoSpace(rest[0]);
          forall i | 0 <= i < |head| ensures head[i] != ' ' {
            if i > 0 { assert head[i] == rest[0][i - 1]; }
          }
        }
        if |rest| == 1 {
          assert Join(Split(s)) == head;
        } else {
          assert rest == [rest[0]] + rest[1..];
          assert Join(rest) == rest[0] + " " + Join(rest[1..]);
          assert Join(Split(s)) == head + " " + Join(rest[1..]);
        }
        assert s == [s[0]] + s[1..];
      }
    }
  }

  // ---- Integers ----

  predicate IsDigit(c: char)
  {
    '0' <= c <= '9'
  }

  predicate AllDigits(s: string)
  {
    forall i :: 0 <= i < |s| ==> IsDigit(s[i])
  }

  /** The value of a string of decimal digits, read left to right. */
  function DigitsValue(s: string): (r: nat)
    requires AllDigits(s)
  {
    if |s| == 0 then 0
    else DigitsValue(s[..|s| - 1]) * 10 + (s[|s| - 1] as int - '0' as int)
  }

  /** `str::parse::<isize>`: an optional sign and at least one digit, within the `isize` range. */
  function ParseInt(s: string): (r: Option<int>)
    ensures r.Some? ==> ISIZE_MIN <= r.value <= ISIZE_MAX
  {
    var negative := |s| > 0 && s[0] == '-';
    var digits := if |s| > 0 && (s[0] == '-' || s[0] == '+') then s[1..] else s;
    if |digits| == 0 || !AllDigits(digits) then None
    else
      var v: int := if negative then -(DigitsValue(digits) as int) else DigitsValue(digits);
      if ISIZE_MIN <= v <= ISIZE_MAX then Some(v) else None
  }

  /** `str::parse::<usize>`: an optional plus sign and at least one digit, within the `usize` range. */
  function ParseNat(s: string): (r: Option<nat>)
    ensures r.Some? ==> r.value <= USIZE_MAX
  {
    var digits := if |s| > 0 && s[0] == '+' then s[1..] else s;
    if |digits| == 0 || !AllDigits(digits) then None
    else if DigitsValue(digits) <= USIZE_MAX then Some(DigitsValue(digits)) else None
  }

  // ---- parse ----

  /** The keywords whose value is the next token. */
  predicate TakesValue(t: string)
  {
    t == "movetime" || t == "wtime" || t == "btime" || t == "winc" || t == "binc" || t == "movestogo" || t == "depth"
  }

  /** The token after `t` parses, as the `unwrap`s of `parse` need. */
  predicate ValueParses(t: string, v: string)
  {
    if t == "depth" then ParseNat(v).Some? else ParseInt(v).Some?
  }

  /** Every keyword that takes a value has a next token, and that token parses. */
  predicate Parsable(tokens: seq<string>)
    decreases |tokens|
  {
    if |tokens| == 0 then true
    else if TakesValue(tokens[0]) then |tokens| >= 2 && ValueParses(tokens[0], tokens[1]) && Parsable(tokens[2..])
    else Parsable(tokens[1..])
  }

  /** `acc` with the option `t` set to the parsed `v`. */
  function SetOption(acc: GoOptions, t: string, v: string): GoOptions
    requires TakesValue(t) && ValueParses(t, v)
  {
    if t == "depth" then acc.(depth := Some(ParseNat(v).value))
    else
      var x := Some(ParseInt(v).value);
      if t == "movetime" then acc.(movetime := x)
      else if t == "wtime" then acc.(wtime := x)
      else if t == "btime" then acc.(btime := x)
      else if t == "winc" then acc.(winc := x)
      else if t == "binc" then acc.(binc := x)
      else acc.(movestogo := x)
  }

  /** The options read from `tokens` on top of `acc`, token by token as `parse` reads them. */
  function ParseTokens(tokens: seq<string>, acc: GoOptions): GoOptions
    requires Parsable(tokens)
    decreases |tokens|
  {
    if |tokens| == 0 then acc
    else if TakesValue(tokens[0]) then ParseTokens(tokens[2..], SetOption(acc, tokens[0], tokens[1]))
    else if tokens[0] == "infinite" then ParseTokens(tokens[1..], acc.(infinite := true))
    else ParseTokens(tokens[1..], acc)
  }

  /** `GoOptions::parse`: the `while let` loop over the tokens of `command`. */
  method Parse(command: string) returns (result: GoOptions)
    requires Parsable(Split(command))
    ensures result == ParseTokens(Split(command), Empty())
  {
    var tokens := Split(command);
    result := Empty();
    var i := 0;
    while i < |tokens|
      invariant 0 <= i <= |tokens|
      invariant Parsable(tokens[i..])
      invariant ParseTokens(tokens[i..], result) == ParseTokens(tokens, Empty())
      decreases |tokens| - i
    {
      var s := tokens[i];
      assert tokens[i..][0] == s;
      if TakesValue(s) {
        assert tokens[i..][2..] == tokens[i + 2..];
        result := SetOption(result, s, tokens[i + 1]);
        i := i + 2;
      } else {
        assert tokens[i..][1..] == tokens[i + 1..];
        if s == "infinite" {
          result := result.(infinite := true);
        }
        i := i + 1;
      }
    }
  }

  /** A token `parse` does not know is skipped and changes nothing. */
  lemma ParseSkips(t: string, rest: seq<string>, acc: GoOptions)
    requires !TakesValue(t) && t != "infinite" && Parsable(rest)
    ensures Parsable([t] + rest)
    ensures ParseTokens([t] + rest, acc) == ParseTokens(rest, acc)
  {
    assert ([t] + rest)[1..] == rest;
  }

  /** The infinite flag is set exactly when it was already set or "infinite" stands at a keyword position. */
  predicate InfiniteGiven(tokens: seq<string>)
    requires Parsable(tokens)
    decreases |tokens|
  {
    if |tokens| == 0 then false
    else if TakesValue(tokens[0]) then InfiniteGiven(tokens[2..])
    else tokens[0] == "infinite" || InfiniteGiven(tokens[1..])
  }

  lemma {:induction false} ParseInfinite(tokens: seq<string>, acc: GoOptions)
    requires Parsable(tokens)
    ensures ParseTokens(tokens, acc).infinite <==> acc.infinite || InfiniteGiven(tokens)
    decreases |tokens|
  {
    if |tokens| > 0 {
      if TakesValue(tokens[0]) {
        ParseInfinite(tokens[2..], SetOption(acc, tokens[0], tokens[1]));
      } else if tokens[0] == "infinite" {
        ParseInfinite(tokens[1..], acc.(infinite := true));
      } else {
        ParseInfinite(tokens[1..], acc);
      }
    }
  }

  /** Tokens without any keyword leave the options as they were. */
  predicate NoKeyword(tokens: seq<string>)
  {
    forall i :: 0 <= i < |tokens| ==> !TakesValue(tokens[i]) && tokens[i] != "infinite"
  }

  lemma {:induction false} ParseNothing(tokens: seq<string>, acc: GoOptions)
    requires NoKeyword(tokens)
    ensures Parsable(tokens) && ParseTokens(tokens, acc) == acc
    decreases |tokens|
  {
    if |tokens| > 0 {
      assert NoKeyword(tokens[1..]) by {
        forall i | 0 <= i < |tokens[1..]| ensures !TakesValue(tokens[1..][i]) && tokens[1..][i] != "infinite" {
          assert tokens[1..][i] == tokens[i + 1];
        }
      }
      assert !TakesValue(tokens[0]) && tokens[0] != "infinite";
      ParseNothing(tokens[1..], acc);
    }
  }

  /** "go depth 5" reads as depth 5 and nothing else. */
  lemma ParseDepthExample()
    ensures Parsable(["go", "depth", "5"])
    ensures ParseTokens(["go", "depth", "5"], Empty()) == Depth(5)
  {
    var ts := ["go", "depth", "5"];
    assert ts[1..] == ["depth", "5"];
    assert ts[1..][2..] == [];
    assert "5"[..0] == "";
    assert DigitsValue("5") == 5;
    assert ParseNat("5") == Some(5);
  }

  /** "go infinite" sets only the infinite flag. */
  lemma ParseInfiniteExample()
    ensures Parsable(["go", "infinite"])
    ensures ParseTokens(["go", "infinite"], Empty()) == Empty().(infinite := true)
  {
    var ts := ["go", "infinite"];
    assert ts[1..] == ["infinite"];
    assert ts[1..][1..] == [];
  }

  // ---- parse_uci_options ----

  function Abs(x: int): int
  {
    if x < 0 then -x else x
  }

  /** Rust's `/` on integers: the quotient rounded toward zero, so the remainder takes the dividend's sign. */
  function TruncDiv(a: int, b: int): (q: int)
    requires b != 0
    ensures Abs(a - q * b) < Abs(b)
    ensures a >= 0 ==> a - q * b >= 0
    ensures a < 0 ==> a - q * b <= 0
  {
    var n := Abs(a);
    var d := Abs(b);
    var q := n / d;
    TruncRemainder(a, b, q);
    if (a < 0) == (b < 0) then q else -q
  }

  /** The remainder of the rounded-toward-zero quotient, from the one of `|a| / |b|`. */
  lemma TruncRemainder(a: int, b: int, q: int)
    requires b != 0 && q == Abs(a) / Abs(b)
    ensures var t := if (a < 0) == (b < 0) then q else -q;
      var r := Abs(a) - q * Abs(b);
      0 <= r < Abs(b) && a - t * b == (if a < 0 then -r else r)
  {
    var n, d := Abs(a), Abs(b);
    var p := q * d;
    assert 0 <= n - p < d;
    assert q * b == (if b < 0 then -p else p) by {
      if b < 0 { assert q * b == q * (-d) == -(q * d); }
    }
    assert (-q) * b == -(q * b);
  }

  /** `as u128`: a negative time wraps around. */
  function ToU128(x: int): (r: nat)
    requires ISIZE_MIN <= x <= ISIZE_MAX
    ensures x >= 0 ==> r == x
    ensures x < 0 ==> r == U128 + x
  {
    if x >= 0 then x else U128 + x
  }

  /**
   * The default number of moves to go, as intended: 40 less the full moves played,
   * and at least 10 however long the game has gone on.
   */
  function DefaultMovesToGo(halfMoves: nat): (r: int)
    ensures 10 <= r <= 40
    ensures r == 40 - halfMoves / 2 || (r == 10 && 40 - halfMoves / 2 < 10)
  {
    var m := 40 - halfMoves / 2;
    if m > 10 then m else 10
  }

  /** `as isize` on a `usize`: values from 2^63 on wrap around to negative ones. */
  function UsizeAsIsize(x: nat): (r: int)
    requires x <= USIZE_MAX
    ensures ISIZE_MIN <= r <= ISIZE_MAX
    ensures r == x || r == x - (USIZE_MAX + 1)
  {
    if x <= ISIZE_MAX then x else x - (USIZE_MAX + 1)
  }

  /**
   * The default as the source computes it: `40 - halfmovesnumbers / 2` is a `usize`
   * subtraction, which wraps around once more than 40 full moves are played, so the
   * maximum with 10 keeps the wrapped value and the cast makes it negative.
   */
  function DefaultMovesToGoAsWritten(halfMoves: nat): (r: int)
    requires halfMoves <= USIZE_MAX
    ensures ISIZE_MIN <= r <= ISIZE_MAX
  {
    var diff := (40 - halfMoves / 2) % (USIZE_MAX + 1);
    var m := if diff > 10 then diff else 10;
    UsizeAsIsize(m)
  }

  /** Up to 40 full moves the source's default is the intended one; after that it is 40 less the full moves, below 0. */
  lemma MovesToGoAsWritten(halfMoves: nat)
    requires halfMoves <= USIZE_MAX
    ensures halfMoves / 2 <= 40 ==> DefaultMovesToGoAsWritten(halfMoves) == DefaultMovesToGo(halfMoves)
    ensures halfMoves / 2 > 40 ==> DefaultMovesToGoAsWritten(halfMoves) == 40 - halfMoves / 2 < 0
  {
    var n := halfMoves / 2;
    if n > 40 {
      assert (40 - n) % (USIZE_MAX + 1) == USIZE_MAX + 1 + 40 - n;
    }
  }

  /**
   * At half move 82 the source's default is -1 moves to go. With a minute left the
   * budget comes out at the 500 ms floor; with a second left it is -1000, which the
   * cast to `u128` turns into nearly 2^128 ms.
   */
  lemma MovesToGoWrapExample()
    ensures DefaultMovesToGoAsWritten(82) == -1
    ensures DefaultMovesToGo(82) == 10
    ensures TimeBudget(60000, -1, 0) == 500
    ensures TimeBudget(1000, -1, 0) == -1000
    ensures ToU128(TimeBudget(1000, -1, 0)) == U128 - 1000
  {
    MovesToGoAsWritten(82);
  }

  /**
   * The time budget for a move: the clock over the moves to go plus half the increment,
   * cut to `max(100, time - 500)` once it reaches the whole clock, and raised to half a
   * second when the clock has more than a second.
   */
  function TimeBudget(time: int, movesToGo: int, inc: int): int
    requires movesToGo != 0
  {
    var base := TruncDiv(time, movesToGo) + TruncDiv(inc, 2);
    var capped := if base >= time then (if 100 > time - 500 then 100 else time - 500) else base;
    if capped < 500 && time > 1000 then 500 else capped
  }

  /** With more than a second on the clock, the budget is at least half a second and less than the clock. */
  lemma BudgetBounds(time: int, movesToGo: int, inc: int)
    requires movesToGo != 0 && time > 1000
    ensures 500 <= TimeBudget(time, movesToGo, inc) < time
  {}

  /**
   * With at most a second on the clock no floor applies: the budget is the base one when
   * it leaves time, else the clock less half a second, but at least 100 ms.
   */
  lemma BudgetShortClock(time: int, movesToGo: int, inc: int)
    requires movesToGo != 0 && time <= 1000
    ensures var base := TruncDiv(time, movesToGo) + TruncDiv(inc, 2);
      && (base < time ==> TimeBudget(time, movesToGo, inc) == base)
      && (base >= time && time >= 600 ==> TimeBudget(time, movesToGo, inc) == time - 500)
      && (base >= time && time < 600 ==> TimeBudget(time, movesToGo, inc) == 100)
  {}

  /** 300000 ms with 41 moves to go gives 7317 ms. */
  lemma BudgetExampleLong()
    ensures TimeBudget(300000, 41, 0) == 7317
  {}

  /** 1234 ms with a 33 ms increment and the default 40 moves to go gives the 500 ms floor. */
  lemma BudgetExampleShort()
    ensures DefaultMovesToGo(0) == 40
    ensures TimeBudget(1234, 40, 33) == 500
  {}

  /** Neither infinite, nor a depth, nor a move time, but some clock: the budget branch. */
  predicate ClockGiven(o: GoOptions)
  {
    !o.infinite && o.depth.None? && o.movetime.None? && (o.wtime.Some? || o.btime.Some?)
  }

  /** The mover's clock; a side other than white or black reads 0. */
  function ClockOf(o: GoOptions, side: nat): int
    requires side == WHITE ==> o.wtime.Some?
    requires side == BLACK ==> o.btime.Some?
  {
    if side == WHITE then o.wtime.value else if side == BLACK then o.btime.value else 0
  }

  /** The moves to go: the given ones, else the default. */
  function MovesToGoOf(o: GoOptions, halfMoves: nat): int
  {
    if o.movestogo.Some? then o.movestogo.value else DefaultMovesToGo(halfMoves)
  }

  /** The mover's increment, 0 when none is given. */
  function IncOf(o: GoOptions, side: nat): int
  {
    if side == WHITE then (if o.winc.Some? then o.winc.value else 0)
    else if side == BLACK then (if o.binc.Some? then o.binc.value else 0) else 0
  }

  /**
   * What the budget branch needs not to panic or overflow `isize` in a debug build:
   * the mover's clock is there (`unwrap`), the moves to go are not 0, the quotient
   * does not overflow (`isize::MIN / -1`), the base budget fits, and so does the
   * clock less half a second where it is computed.
   */
  predicate BudgetDefined(o: GoOptions, side: nat, halfMoves: nat)
  {
    && (side == WHITE ==> o.wtime.Some?)
    && (side == BLACK ==> o.btime.Some?)
    && MovesToGoOf(o, halfMoves) != 0
    && !(ClockOf(o, side) == ISIZE_MIN && MovesToGoOf(o, halfMoves) == -1)
    && var base := TruncDiv(ClockOf(o, side), MovesToGoOf(o, halfMoves)) + TruncDiv(IncOf(o, side), 2);
      && ISIZE_MIN <= base <= ISIZE_MAX
      && (base >= ClockOf(o, side) ==> ClockOf(o, side) - 500 >= ISIZE_MIN)
  }

  /** The options as `parse` produces them: every number within the `isize` range. */
  predicate InRange(o: GoOptions)
  {
    && (o.movetime.Some? ==> ISIZE_MIN <= o.movetime.value <= ISIZE_MAX)
    && (o.wtime.Some? ==> ISIZE_MIN <= o.wtime.value <= ISIZE_MAX)
    && (o.btime.Some? ==> ISIZE_MIN <= o.btime.value <= ISIZE_MAX)
    && (o.winc.Some? ==> ISIZE_MIN <= o.winc.value <= ISIZE_MAX)
    && (o.binc.Some? ==> ISIZE_MIN <= o.binc.value <= ISIZE_MAX)
    && (o.movestogo.Some? ==> ISIZE_MIN <= o.movestogo.value <= ISIZE_MAX)
  }

  /** The clock, moves to go and increment of the budget branch for `side`. */
  function BudgetOf(o: GoOptions, side: nat, halfMoves: nat): (r: int)
    requires BudgetDefined(o, side, halfMoves)
    ensures ISIZE_MIN <= r <= ISIZE_MAX
  {
    var time := ClockOf(o, side);
    var budget := TimeBudget(time, MovesToGoOf(o, halfMoves), IncOf(o, side));
    BudgetFits(time, MovesToGoOf(o, halfMoves), IncOf(o, side));
    budget
  }

  /** When the base budget and the clock less half a second fit `isize`, so does the budget. */
  lemma BudgetFits(time: int, movesToGo: int, inc: int)
    requires movesToGo != 0
    requires var base := TruncDiv(time, movesToGo) + TruncDiv(inc, 2);
      ISIZE_MIN <= base <= ISIZE_MAX && (base >= time ==> time - 500 >= ISIZE_MIN)
    ensures ISIZE_MIN <= TimeBudget(time, movesToGo, inc) <= ISIZE_MAX
  {}

  /**
   * `parse_uci_options`: the search depth and the time for the move, in priority order:
   * infinite, then a depth, then a move time, then the clocks.
   */
  method ParseUciOptions(options: GoOptions, side: nat, halfMoves: nat) returns (maxDepth: nat, timeToMove: Option<nat>)
    requires InRange(options)
    requires ClockGiven(options) ==> BudgetDefined(options, side, halfMoves)
    ensures options.infinite ==> maxDepth == MAX_DEPTH && timeToMove.None?
    ensures !options.infinite && options.depth.Some? ==> maxDepth == options.depth.value && timeToMove.None?
    ensures !options.infinite && options.depth.None? && options.movetime.Some? ==>
      maxDepth == MAX_DEPTH && timeToMove == Some(ToU128(options.movetime.value))
    ensures ClockGiven(options) ==>
      maxDepth == MAX_DEPTH && timeToMove == Some(ToU128(BudgetOf(options, side, halfMoves)))
    ensures !options.infinite && options.depth.None? && options.movetime.None? && !ClockGiven(options) ==>
      maxDepth == MAX_DEPTH && timeToMove.None?
  {
    timeToMove := None;
    maxDepth := MAX_DEPTH;
    if options.infinite {
      maxDepth := MAX_DEPTH;
    } else if options.depth.Some? {
      maxDepth := options.depth.value;
    } else if options.movetime.Some? {
      timeToMove := Some(ToU128(options.movetime.value));
    } else if options.wtime.Some? || options.btime.Some? {
      var time := if side == WHITE then options.wtime.value else if side == BLACK then options.btime.value else 0;
      var movesToGo := if options.movestogo.Some? then options.movestogo.value else DefaultMovesToGo(halfMoves);
      var inc := if side == WHITE then (if options.winc.Some? then options.winc.value else 0)
        else if side == BLACK then (if options.binc.Some? then options.binc.value else 0) else 0;
      var budget := TruncDiv(time, movesToGo) + TruncDiv(inc, 2);
      if budget >= time {
        budget := if 100 > time - 500 then 100 else time - 500;
      }
      if budget < 500 && time > 1000 {
        budget := 500;
      }
      timeToMove := Some(ToU128(budget));
    }
  }
}
