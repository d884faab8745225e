/**
 * What the move generators of movegen/generator.rs promise about the lists they build:
 * each mode keeps to its kind of move, diagonal captures stay next to the pawn, a pawn
 * promotes exactly from its last-but-one rank, a two-rank pawn move is a double push
 * from the start rank over two empty squares, and a castle needs its right and an
 * empty path between king and rook.
 */
module MoveGenProperties {
  import opened Bits
  import opened Wrappers
  import opened Models
  import opened Magic
  import opened Generator
  import opened MoveEffects

  // ---- Files and diagonal steps ----

  /** Every square off the a-file, and every square off the h-file. */
  const NOT_A_FILE: bv64 := 0xfefe_fefe_fefe_fefe
  const NOT_H_FILE: bv64 := 0x7f7f_7f7f_7f7f_7f7f

  /** The file of a square's index is given by the three lowest tests of `Log2`. */
  lemma FileOfLog(s: bv64)
    ensures Log2(s) % 8 == (if s & 0xF0F0_F0F0_F0F0_F0F0 != 0 then 4 else 0) +
      (if s & 0xCCCC_CCCC_CCCC_CCCC != 0 then 2 else 0) + (if s & 0xAAAA_AAAA_AAAA_AAAA != 0 then 1 else 0)
  {}

  lemma AFileMasks(s: bv64)
    ensures (s & 0xF0F0_F0F0_F0F0_F0F0 == 0 && s & 0xCCCC_CCCC_CCCC_CCCC == 0 && s & 0xAAAA_AAAA_AAAA_AAAA == 0)
      == (s & NOT_A_FILE == 0)
  {}

  lemma HFileMasks(s: bv64)
    requires IsSingle(s)
    ensures (s & 0xF0F0_F0F0_F0F0_F0F0 != 0 && s & 0xCCCC_CCCC_CCCC_CCCC != 0 && s & 0xAAAA_AAAA_AAAA_AAAA != 0)
      == (s & NOT_H_FILE == 0)
  {}

  /** The generator's `index % 8 == 0` test holds for a single square exactly on the a-file. */
  lemma AFileIndex(s: bv64)
    requires IsSingle(s)
    ensures Log2(s) % 8 == 0 <==> s & NOT_A_FILE == 0
  {
    FileOfLog(s);
    AFileMasks(s);
  }

  /** The generator's `index % 8 == 7` test holds for a single square exactly on the h-file. */
  lemma HFileIndex(s: bv64)
    requires IsSingle(s)
    ensures Log2(s) % 8 == 7 <==> s & NOT_H_FILE == 0
  {
    FileOfLog(s);
    HFileMasks(s);
  }

  // Steps towards the a-file land on the h-file only from the a-file, and the other way round.

  lemma ShiftFromAFile(s: bv64)
    requires s & NOT_A_FILE == 0
    ensures (s << 7) & NOT_H_FILE == 0 && (s >> 9) & NOT_H_FILE == 0
  {}

  lemma ShiftOffAFile(s: bv64)
    requires IsSingle(s) && s & NOT_A_FILE != 0
    ensures (s << 7) & NOT_H_FILE == s << 7 && (s >> 9) & NOT_H_FILE == s >> 9
  {}

  lemma ShiftFromHFile(s: bv64)
    requires s & NOT_H_FILE == 0
    ensures (s << 9) & NOT_A_FILE == 0 && (s >> 7) & NOT_A_FILE == 0
  {}

  lemma ShiftOffHFile(s: bv64)
    requires IsSingle(s) && s & NOT_H_FILE != 0
    ensures (s << 9) & NOT_A_FILE == s << 9 && (s >> 7) & NOT_A_FILE == s >> 7
  {}

  /**
   * A capture towards the a-file never wraps: from the square `s` with index `Log2(s)`,
   * the generator's capture square is the diagonal shift without the squares that
   * wrapped round onto the h-file.
   */
  lemma CaptureLeftNoWrap(me: nat, s: bv64)
    requires IsSingle(s)
    ensures me == WHITE ==> CaptureLeft(me, s, Log2(s)) == (s << 7) & NOT_H_FILE
    ensures me != WHITE ==> CaptureLeft(me, s, Log2(s)) == (s >> 9) & NOT_H_FILE
  {
    AFileIndex(s);
    if s & NOT_A_FILE == 0 {
      ShiftFromAFile(s);
    } else {
      ShiftOffAFile(s);
    }
  }

  /** A capture towards the h-file never wraps onto the a-file. */
  lemma CaptureRightNoWrap(me: nat, s: bv64)
    requires IsSingle(s)
    ensures me == WHITE ==> CaptureRight(me, s, Log2(s)) == (s << 9) & NOT_A_FILE
    ensures me != WHITE ==> CaptureRight(me, s, Log2(s)) == (s >> 7) & NOT_A_FILE
  {
    HFileIndex(s);
    if s & NOT_H_FILE == 0 {
      ShiftFromHFile(s);
    } else {
      ShiftOffHFile(s);
    }
  }

  lemma Left7Adjacent(s: bv64)
    ensures Within((s << 7) & NOT_H_FILE, KingShift(s))
  {}

  lemma Right9Adjacent(s: bv64)
    ensures Within((s >> 9) & NOT_H_FILE, KingShift(s))
  {}

  lemma Left9Adjacent(s: bv64)
    ensures Within((s << 9) & NOT_A_FILE, KingShift(s))
  {}

  lemma Right7Adjacent(s: bv64)
    ensures Within((s >> 7) & NOT_A_FILE, KingShift(s))
  {}

  /**
   * Both capture squares of a pawn are among the squares next to it, the king steps
   * of `KingShift` (which `Magic.KingShiftSteps` shows change rank and file by at most one).
   */
  lemma CapturesAdjacent(me: nat, s: bv64)
    requires IsSingle(s)
    ensures Within(CaptureLeft(me, s, Log2(s)), KingShift(s))
    ensures Within(CaptureRight(me, s, Log2(s)), KingShift(s))
  {
    hide KingShift;
    CaptureLeftNoWrap(me, s);
    CaptureRightNoWrap(me, s);
    if me == WHITE {
      Left7Adjacent(s);
      Left9Adjacent(s);
    } else {
      Right9Adjacent(s);
      Right7Adjacent(s);
    }
  }

  lemma Left7Single(s: bv64)
    requires IsSingle(s)
    ensures (s << 7) & NOT_H_FILE == 0 || IsSingle((s << 7) & NOT_H_FILE)
  {}

  lemma Right9Single(s: bv64)
    requires IsSingle(s)
    ensures (s >> 9) & NOT_H_FILE == 0 || IsSingle((s >> 9) & NOT_H_FILE)
  {}

  lemma Left9Single(s: bv64)
    requires IsSingle(s)
    ensures (s << 9) & NOT_A_FILE == 0 || IsSingle((s << 9) & NOT_A_FILE)
  {}

  lemma Right7Single(s: bv64)
    requires IsSingle(s)
    ensures (s >> 7) & NOT_A_FILE == 0 || IsSingle((s >> 7) & NOT_A_FILE)
  {}

  /** The capture square towards the a-file is one square, or none. */
  lemma CaptureLeftSingle(me: nat, s: bv64)
    requires IsSingle(s)
    ensures CaptureLeft(me, s, Log2(s)) == 0 || IsSingle(CaptureLeft(me, s, Log2(s)))
  {
    hide CaptureLeft, IsSingle;
    CaptureLeftNoWrap(me, s);
    if me == WHITE {
      Left7Single(s);
    } else {
      Right9Single(s);
    }
  }

  /** The capture square towards the h-file is one square, or none. */
  lemma CaptureRightSingle(me: nat, s: bv64)
    requires IsSingle(s)
    ensures CaptureRight(me, s, Log2(s)) == 0 || IsSingle(CaptureRight(me, s, Log2(s)))
  {
    hide CaptureRight, IsSingle;
    CaptureRightNoWrap(me, s);
    if me == WHITE {
      Left9Single(s);
    } else {
      Right7Single(s);
    }
  }

  // ---- What each mode keeps ----

  /** The square a move brings its piece to; for a castle, the king's. */
  function Target(m: Move): bv64
  {
    match m
    case Normal(_, to) => to
    case Promotion(_, to, _) => to
    case EnPassant(_, to) => to
    case Castle(c) => if CastleSquares(c).Some? then CastleSquares(c).value.1 else NONE
  }

  /**
   * What a list generated in mode `kind` promises of each of its moves. All: the target
   * holds none of the mover's pieces. OnlySilent: nothing is captured and the target is
   * empty. OnlyCaptures: an opponent's piece is captured, and unless the capture is en
   * passant that piece stands on the target.
   */
  predicate KeepsKind(b: PiecePosition, me: nat, kind: MoveGenKind, mi: MoveInfo)
    requires Shaped(b) && me < 2
  {
    match kind
    case All => Disjoint(Target(mi.m), b.sidePieces[me])
    case OnlySilent => mi.capturedPiece == None && IsSquareEmpty(b, Target(mi.m))
    case OnlyCaptures =>
      && mi.capturedPiece.Some? && mi.capturedPiece.value < 6
      && (mi.m.EnPassant? || !Disjoint(b.pieces[Opposite(me)][mi.capturedPiece.value], Target(mi.m)))
  }

  predicate AllKeepKind(b: PiecePosition, me: nat, kind: MoveGenKind, ms: seq<MoveInfo>)
    requires Shaped(b) && me < 2
  {
    forall i :: 0 <= i < |ms| ==> KeepsKind(b, me, kind, ms[i])
  }

  lemma KeepConcat(b: PiecePosition, me: nat, kind: MoveGenKind, ms: seq<MoveInfo>, ns: seq<MoveInfo>)
    requires Shaped(b) && me < 2
    requires AllKeepKind(b, me, kind, ms) && AllKeepKind(b, me, kind, ns)
    ensures AllKeepKind(b, me, kind, ms + ns)
  {
    hide KeepsKind;
    forall i | 0 <= i < |ms + ns| ensures KeepsKind(b, me, kind, (ms + ns)[i]) {
      if i < |ms| {
        assert (ms + ns)[i] == ms[i];
      } else {
        assert (ms + ns)[i] == ns[i - |ms|];
      }
    }
  }

  lemma KeepNone(b: PiecePosition, me: nat, kind: MoveGenKind)
    requires Shaped(b) && me < 2
    ensures AllKeepKind(b, me, kind, [])
  {}

  lemma KeepOne(b: PiecePosition, me: nat, kind: MoveGenKind, mi: MoveInfo)
    requires Shaped(b) && me < 2 && KeepsKind(b, me, kind, mi)
    ensures AllKeepKind(b, me, kind, [mi])
  {
    hide KeepsKind;
  }

  /**
   * The board facts a reachable position keeps and the modes rely on: the two sides
   * share no square, and each side's board is the union of its piece boards.
   */
  predicate Consistent(b: PiecePosition)
  {
    && Shaped(b)
    && Disjoint(b.sidePieces[WHITE], b.sidePieces[BLACK])
    && SideIsUnion(b, WHITE) && SideIsUnion(b, BLACK)
  }

  /**
   * On a consistent board a square the opponent occupies holds one of the opponent's
   * pieces, and `get_enemy_piece_in_square` finds it.
   */
  lemma EnemyFound(b: PiecePosition, me: nat, to: bv64)
    requires Consistent(b) && me < 2 && !Disjoint(b.sidePieces[Opposite(me)], to)
    ensures var r := FirstPieceOn(b.pieces[Opposite(me)], to, 0);
      r.Some? && r.value < 6 && !Disjoint(b.pieces[Opposite(me)][r.value], to)
  {
    var row := b.pieces[Opposite(me)];
    if forall q :: 0 <= q < |row| ==> Disjoint(row[q], to) {
      NoneHold(row, to);
      assert false;
    }
    var q :| 0 <= q < |row| && !Disjoint(row[q], to);
    FirstPieceOnFinds(row, to, 0, q);
  }

  lemma MaskedOut(a: bv64, x: bv64, y: bv64)
    requires Within(a, x & !y)
    ensures Disjoint(a, y) && Disjoint(y, a)
  {}

  lemma MaskedIn(a: bv64, x: bv64, y: bv64)
    requires a != 0 && Within(a, x & y)
    ensures !Disjoint(y, a)
  {}

  lemma TargetKeepsAll(b: PiecePosition, me: nat, from: bv64, to: bv64, attacks: bv64, piece: nat)
    requires Shaped(b) && me < 2 && Within(to, KindMask(b, me, attacks, All))
    ensures KeepsKind(b, me, All, MoveInfo(Normal(from, to), piece, Captured(b, me, to, All)))
  {
    MaskedOut(to, attacks, b.sidePieces[me]);
  }

  lemma TargetKeepsSilent(b: PiecePosition, me: nat, from: bv64, to: bv64, attacks: bv64, piece: nat)
    requires Shaped(b) && me < 2 && Within(to, KindMask(b, me, attacks, OnlySilent))
    ensures KeepsKind(b, me, OnlySilent, MoveInfo(Normal(from, to), piece, Captured(b, me, to, OnlySilent)))
  {
    hide IsSquareEmpty, Within;
    SilentEmpty(b, to, attacks);
  }

  lemma SilentEmpty(b: PiecePosition, to: bv64, attacks: bv64)
    requires Shaped(b) && Within(to, attacks & !GetOccupancy(b))
    ensures IsSquareEmpty(b, to)
  {
    MaskedOut(to, attacks, GetOccupancy(b));
  }

  lemma TargetKeepsCaptures(b: PiecePosition, me: nat, from: bv64, to: bv64, attacks: bv64, piece: nat)
    requires Consistent(b) && me < 2 && to != 0 && Within(to, KindMask(b, me, attacks, OnlyCaptures))
    ensures KeepsKind(b, me, OnlyCaptures, MoveInfo(Normal(from, to), piece, Captured(b, me, to, OnlyCaptures)))
  {
    MaskedIn(to, attacks, b.sidePieces[Opposite(me)]);
    EnemyFound(b, me, to);
  }

  /** A square of the mode's mask gives a move the mode keeps. */
  lemma TargetKeeps(b: PiecePosition, me: nat, from: bv64, to: bv64, attacks: bv64, piece: nat, kind: MoveGenKind)
    requires Consistent(b) && me < 2 && to != 0 && Within(to, KindMask(b, me, attacks, kind))
    ensures KeepsKind(b, me, kind, MoveInfo(Normal(from, to), piece, Captured(b, me, to, kind)))
  {
    hide KeepsKind, Captured, Within, KindMask, SideIsUnion;
    match kind
    case All =>
      TargetKeepsAll(b, me, from, to, attacks, piece);
    case OnlySilent =>
      TargetKeepsSilent(b, me, from, to, attacks, piece);
    case OnlyCaptures =>
      TargetKeepsCaptures(b, me, from, to, attacks, piece);
  }

  /** One step of `TargetMoves`: the move to the lowest square, then the rest. */
  lemma TargetMovesStep(b: PiecePosition, me: nat, from: bv64, mask: bv64, piece: nat, kind: MoveGenKind)
    requires Shaped(b) && me < 2 && mask != 0
    ensures PopCount(mask & (mask - 1)) < PopCount(mask)
    ensures TargetMoves(b, me, from, mask, piece, kind) ==
      [MoveInfo(Normal(from, Lowest(mask)), piece, Captured(b, me, Lowest(mask), kind))]
      + TargetMoves(b, me, from, mask & (mask - 1), piece, kind)
  {
    hide Lowest, Captured;
  }

  lemma TargetMovesNone(b: PiecePosition, me: nat, from: bv64, piece: nat, kind: MoveGenKind)
    requires Shaped(b) && me < 2
    ensures TargetMoves(b, me, from, 0, piece, kind) == []
  {}

  /** Every move of `TargetMoves` over a part of the mode's mask is one the mode keeps. */
  lemma {:induction false} TargetMovesKeep(b: PiecePosition, me: nat, from: bv64, mask: bv64, attacks: bv64, piece: nat,
    kind: MoveGenKind)
    requires Consistent(b) && me < 2 && Within(mask, KindMask(b, me, attacks, kind))
    ensures AllKeepKind(b, me, kind, TargetMoves(b, me, from, mask, piece, kind))
    decreases PopCount(mask)
  {
    hide Lowest, KindMask, Captured, TargetMoves, AllKeepKind, Within, SideIsUnion;
    if mask == 0 {
      TargetMovesNone(b, me, from, piece, kind);
      KeepNone(b, me, kind);
    } else {
      var to, rest, km := Lowest(mask), mask & (mask - 1), KindMask(b, me, attacks, kind);
      var mi := MoveInfo(Normal(from, to), piece, Captured(b, me, to, kind));
      TargetMovesStep(b, me, from, mask, piece, kind);
      LowestSplit(mask);
      LowestNonEmpty(mask);
      WithinTrans(rest, mask, km);
      WithinTrans(to, mask, km);
      TargetKeeps(b, me, from, to, attacks, piece, kind);
      KeepOne(b, me, kind, mi);
      TargetMovesKeep(b, me, from, rest, attacks, piece, kind);
      KeepConcat(b, me, kind, [mi], TargetMoves(b, me, from, rest, piece, kind));
    }
  }

  /** The knight, rook, bishop and queen generators keep to their mode. */
  lemma {:induction false} PiecesMovesKeep(lk: Lookups, b: PiecePosition, me: nat, pieces: bv64, piece: nat, kind: MoveGenKind)
    requires Consistent(b) && me < 2
    ensures AllKeepKind(b, me, kind, PiecesMoves(lk, b, me, pieces, piece, kind))
    decreases PopCount(pieces)
  {
    if pieces == 0 {
      PiecesMovesNone(lk, b, me, piece, kind);
    } else {
      var index, square := TrailingZeros(pieces), Lowest(pieces);
      PiecesMovesStep(lk, b, me, pieces, piece, kind, index, square);
      hide TrailingZeros, Lowest, PiecesMoves, TargetMoves, AllKeepKind, SideIsUnion;
      var km := KindMask(b, me, PieceAttacks(lk, piece, index, GetOccupancy(b)), kind);
      EmptyWithin(km);
      TargetMovesKeep(b, me, square, km, PieceAttacks(lk, piece, index, GetOccupancy(b)), piece, kind);
      PiecesMovesKeep(lk, b, me, pieces & (pieces - 1), piece, kind);
      KeepConcat(b, me, kind, TargetMoves(b, me, square, km, piece, kind), PiecesMoves(lk, b, me, pieces & (pieces - 1), piece, kind));
    }
  }

  // ---- Pawns, king and castles in each mode ----

  /** Two moves with the same target, capture and en-passant flag are kept alike. */
  lemma KeepsLike(b: PiecePosition, me: nat, kind: MoveGenKind, mi: MoveInfo, mj: MoveInfo)
    requires Shaped(b) && me < 2 && KeepsKind(b, me, kind, mi)
    requires Target(mi.m) == Target(mj.m) && mi.capturedPiece == mj.capturedPiece && mi.m.EnPassant? == mj.m.EnPassant?
    ensures KeepsKind(b, me, kind, mj)
  {}

  /** The four promotions of a pawn step are kept as the plain step would be. */
  lemma PawnStepKeeps(b: PiecePosition, me: nat, kind: MoveGenKind, from: bv64, to: bv64, isPromotion: bool, captured: Option<nat>)
    requires Shaped(b) && me < 2 && KeepsKind(b, me, kind, MoveInfo(Normal(from, to), PAWN, captured))
    ensures AllKeepKind(b, me, kind, PawnStep(from, to, isPromotion, captured))
  {
    hide KeepsKind;
    var mi := MoveInfo(Normal(from, to), PAWN, captured);
    if isPromotion {
      KeepsLike(b, me, kind, mi, MoveInfo(Promotion(from, to, QUEEN), PAWN, captured));
      KeepsLike(b, me, kind, mi, MoveInfo(Promotion(from, to, ROOK), PAWN, captured));
      KeepsLike(b, me, kind, mi, MoveInfo(Promotion(from, to, KNIGHT), PAWN, captured));
      KeepsLike(b, me, kind, mi, MoveInfo(Promotion(from, to, BISHOP), PAWN, captured));
    }
  }

  /** An empty square holds none of the mover's pieces. */
  lemma EmptyNotOwn(b: PiecePosition, me: nat, to: bv64)
    requires Shaped(b) && me < 2 && IsSquareEmpty(b, to)
    ensures Disjoint(to, b.sidePieces[me])
  {}

  /** A single square that meets the opponent's board is on it, so not on the mover's. */
  lemma EnemyNotOwn(b: PiecePosition, me: nat, to: bv64)
    requires Consistent(b) && me < 2 && IsSingle(to) && IsSquareEnemy(b, me, to)
    ensures Disjoint(to, b.sidePieces[me])
  {
    hide SideIsUnion;
    SingleMeets(to, b.sidePieces[Opposite(me)]);
    if me == WHITE {
      DisjointSym(b.sidePieces[WHITE], b.sidePieces[BLACK]);
    }
    WithinDisjoint(to, b.sidePieces[Opposite(me)], b.sidePieces[me]);
  }

  lemma SingleMeets(s: bv64, x: bv64)
    requires IsSingle(s) && x & s != 0
    ensures Within(s, x)
  {}

  /** A push to an empty square is kept by the modes that push. */
  lemma QuietKeeps(b: PiecePosition, me: nat, kind: MoveGenKind, from: bv64, to: bv64)
    requires Shaped(b) && me < 2 && kind != OnlyCaptures && IsSquareEmpty(b, to)
    ensures KeepsKind(b, me, kind, MoveInfo(Normal(from, to), PAWN, None))
  {
    if kind == All {
      EmptyNotOwn(b, me, to);
    }
  }

  /** A diagonal capture of an opponent's piece is kept by the modes that capture. */
  lemma CaptureKeeps(b: PiecePosition, me: nat, kind: MoveGenKind, from: bv64, to: bv64)
    requires Consistent(b) && me < 2 && kind != OnlySilent && IsSingle(to) && IsSquareEnemy(b, me, to)
    ensures KeepsKind(b, me, kind, MoveInfo(Normal(from, to), PAWN, EnemyPieceInSquare(b, me, to, true)))
  {
    if kind == All {
      EnemyNotOwn(b, me, to);
    } else {
      EnemyFound(b, me, to);
    }
  }

  lemma PawnSingleKeeps(b: PiecePosition, me: nat, kind: MoveGenKind, square: bv64)
    requires Shaped(b) && me < 2 && kind != OnlyCaptures
    ensures AllKeepKind(b, me, kind, PawnSingle(b, me, square))
  {
    hide KeepsKind, AllKeepKind, PawnStep, IsSquareEmpty, OneAhead, PromotionRow;
    var one := OneAhead(me, square);
    if one != 0 && IsSquareEmpty(b, one) {
      QuietKeeps(b, me, kind, square, one);
      PawnStepKeeps(b, me, kind, square, one, square & PromotionRow(me) != 0, None);
    } else {
      KeepNone(b, me, kind);
    }
  }

  lemma PawnDoubleKeeps(b: PiecePosition, me: nat, kind: MoveGenKind, square: bv64)
    requires Shaped(b) && me < 2 && kind != OnlyCaptures
    ensures AllKeepKind(b, me, kind, PawnDouble(b, me, square))
  {
    hide KeepsKind, AllKeepKind, IsSquareEmpty, OneAhead, TwoAhead, StartRow;
    var one, two := OneAhead(me, square), TwoAhead(me, square);
    if square & StartRow(me) != 0 && IsSquareEmpty(b, one) && IsSquareEmpty(b, two) {
      QuietKeeps(b, me, kind, square, two);
      KeepOne(b, me, kind, MoveInfo(Normal(square, two), PAWN, None));
    } else {
      KeepNone(b, me, kind);
    }
  }

  lemma PawnPushesKeep(b: PiecePosition, me: nat, kind: MoveGenKind, square: bv64)
    requires Shaped(b) && me < 2 && kind != OnlyCaptures
    ensures AllKeepKind(b, me, kind, PawnPushes(b, me, square))
  {
    hide AllKeepKind, PawnSingle, PawnDouble;
    PawnSingleKeeps(b, me, kind, square);
    PawnDoubleKeeps(b, me, kind, square);
    KeepConcat(b, me, kind, PawnSingle(b, me, square), PawnDouble(b, me, square));
  }

  lemma PawnCaptureKeeps(b: PiecePosition, me: nat, kind: MoveGenKind, square: bv64, to: bv64, isPromotion: bool)
    requires Consistent(b) && me < 2 && kind != OnlySilent && (to == 0 || IsSingle(to))
    ensures AllKeepKind(b, me, kind, PawnCapture(b, me, square, to, isPromotion))
  {
    hide KeepsKind, AllKeepKind, PawnStep, EnemyPieceInSquare, SideIsUnion;
    if to != 0 && IsSquareEnemy(b, me, to) {
      CaptureKeeps(b, me, kind, square, to);
      PawnStepKeeps(b, me, kind, square, to, isPromotion, EnemyPieceInSquare(b, me, to, true));
    } else {
      KeepNone(b, me, kind);
    }
  }

  lemma PawnEnPassantKeeps(b: PiecePosition, me: nat, kind: MoveGenKind, square: bv64, ep: bv64, to1: bv64, to2: bv64)
    requires Shaped(b) && me < 2 && kind != OnlySilent
    ensures AllKeepKind(b, me, kind, PawnEnPassant(b, square, ep, to1, to2))
  {
    hide AllKeepKind;
    if ep != NONE && IsSquareEmpty(b, ep) && (to1 == ep || to2 == ep) {
      if kind == All {
        EmptyNotOwn(b, me, ep);
      }
      KeepOne(b, me, kind, MoveInfo(EnPassant(square, ep), PAWN, Some(PAWN)));
    } else {
      KeepNone(b, me, kind);
    }
  }

  lemma PawnCapturesKeep(b: PiecePosition, me: nat, kind: MoveGenKind, ep: bv64, square: bv64)
    requires Consistent(b) && me < 2 && kind != OnlySilent && IsSingle(square)
    ensures AllKeepKind(b, me, kind, PawnCaptures(b, me, ep, square, Log2(square)))
  {
    hide KeepsKind, AllKeepKind, PawnCapture, PawnEnPassant, CaptureLeft, CaptureRight, SideIsUnion, IsSingle;
    var isPromotion := square & PromotionRow(me) != 0;
    var to1, to2 := CaptureLeft(me, square, Log2(square)), CaptureRight(me, square, Log2(square));
    CaptureLeftSingle(me, square);
    CaptureRightSingle(me, square);
    PawnCaptureKeeps(b, me, kind, square, to1, isPromotion);
    PawnCaptureKeeps(b, me, kind, square, to2, isPromotion);
    PawnEnPassantKeeps(b, me, kind, square, ep, to1, to2);
    KeepConcat(b, me, kind, PawnCapture(b, me, square, to1, isPromotion), PawnCapture(b, me, square, to2, isPromotion));
    KeepConcat(b, me, kind, PawnCapture(b, me, square, to1, isPromotion) + PawnCapture(b, me, square, to2, isPromotion),
      PawnEnPassant(b, square, ep, to1, to2));
  }

  lemma PawnMovesFromKeeps(b: PiecePosition, me: nat, ep: bv64, square: bv64, kind: MoveGenKind)
    requires Consistent(b) && me < 2 && IsSingle(square)
    ensures AllKeepKind(b, me, kind, PawnMovesFrom(b, me, ep, square, Log2(square), kind))
  {
    hide KeepsKind, AllKeepKind, PawnPushes, PawnCaptures, SideIsUnion, IsSingle;
    var pushes := if kind == OnlyCaptures then [] else PawnPushes(b, me, square);
    var captures := if kind == OnlySilent then [] else PawnCaptures(b, me, ep, square, Log2(square));
    if kind == OnlyCaptures {
      KeepNone(b, me, kind);
    } else {
      PawnPushesKeep(b, me, kind, square);
    }
    if kind == OnlySilent {
      KeepNone(b, me, kind);
    } else {
      PawnCapturesKeep(b, me, kind, ep, square);
    }
    KeepConcat(b, me, kind, pushes, captures);
  }

  /** The pawn generator keeps to its mode. */
  lemma {:induction false} PawnsMovesKeep(b: PiecePosition, me: nat, ep: bv64, pawns: bv64, kind: MoveGenKind)
    requires Consistent(b) && me < 2
    ensures AllKeepKind(b, me, kind, PawnsMoves(b, me, ep, pawns, kind))
    decreases PopCount(pawns)
  {
    if pawns == 0 {
      PawnsMovesNone(b, me, ep, kind);
      KeepNone(b, me, kind);
    } else {
      var index, square := TrailingZeros(pawns), Lowest(pawns);
      assert index == Log2(square);
      PawnsMovesStep(b, me, ep, pawns, kind, index, square);
      hide TrailingZeros, Lowest, PawnsMoves, PawnMovesFrom, AllKeepKind, SideIsUnion;
      LowestSingle(pawns);
      PawnMovesFromKeeps(b, me, ep, square, kind);
      PawnsMovesKeep(b, me, ep, pawns & (pawns - 1), kind);
      KeepConcat(b, me, kind, PawnMovesFrom(b, me, ep, square, index, kind), PawnsMoves(b, me, ep, pawns & (pawns - 1), kind));
    }
  }

  lemma CastleIfKeeps(b: PiecePosition, me: nat, kind: MoveGenKind, castling: bv8, flag: bv8, free: bool)
    requires Shaped(b) && me < 2 && kind != OnlyCaptures
    requires free ==> IsSquareEmpty(b, Target(Castle(flag)))
    ensures AllKeepKind(b, me, kind, CastleIf(castling, flag, free))
  {
    hide AllKeepKind;
    if castling & flag != 0 && free {
      if kind == All {
        EmptyNotOwn(b, me, Target(Castle(flag)));
      }
      KeepOne(b, me, kind, MoveInfo(Castle(flag), KING, None));
    } else {
      KeepNone(b, me, kind);
    }
  }

  /** A castle lands the king on an empty square and captures nothing. */
  lemma CastleMovesKeep(b: PiecePosition, me: nat, kind: MoveGenKind, castling: bv8)
    requires Shaped(b) && me < 2 && kind != OnlyCaptures
    ensures AllKeepKind(b, me, kind, CastleMoves(b, me, castling))
  {
    hide AllKeepKind, CastleIf, IsSquareEmpty;
    if me == WHITE {
      assert Target(Castle(WHITE_KING_SIDE)) == G1 && Target(Castle(WHITE_QUEEN_SIDE)) == C1;
      CastleIfKeeps(b, me, kind, castling, WHITE_KING_SIDE, IsSquareEmpty(b, F1) && IsSquareEmpty(b, G1));
      CastleIfKeeps(b, me, kind, castling, WHITE_QUEEN_SIDE, IsSquareEmpty(b, B1) && IsSquareEmpty(b, C1) && IsSquareEmpty(b, D1));
      KeepConcat(b, me, kind, CastleIf(castling, WHITE_KING_SIDE, IsSquareEmpty(b, F1) && IsSquareEmpty(b, G1)),
        CastleIf(castling, WHITE_QUEEN_SIDE, IsSquareEmpty(b, B1) && IsSquareEmpty(b, C1) && IsSquareEmpty(b, D1)));
    } else {
      assert Target(Castle(BLACK_KING_SIDE)) == G8 && Target(Castle(BLACK_QUEEN_SIDE)) == C8;
      CastleIfKeeps(b, me, kind, castling, BLACK_KING_SIDE, IsSquareEmpty(b, F8) && IsSquareEmpty(b, G8));
      CastleIfKeeps(b, me, kind, castling, BLACK_QUEEN_SIDE, IsSquareEmpty(b, B8) && IsSquareEmpty(b, C8) && IsSquareEmpty(b, D8));
      KeepConcat(b, me, kind, CastleIf(castling, BLACK_KING_SIDE, IsSquareEmpty(b, F8) && IsSquareEmpty(b, G8)),
        CastleIf(castling, BLACK_QUEEN_SIDE, IsSquareEmpty(b, B8) && IsSquareEmpty(b, C8) && IsSquareEmpty(b, D8)));
    }
  }

  /** The king generator keeps to its mode. */
  lemma KingMovesKeep(lk: Lookups, b: PiecePosition, me: nat, castling: bv8, kind: MoveGenKind)
    requires Consistent(b) && me < 2 && b.pieces[me][KING] != 0
    ensures AllKeepKind(b, me, kind, KingMoves(lk, b, me, castling, kind))
  {
    hide AllKeepKind, TargetMoves, CastleMoves, KindMask, SideIsUnion;
    var king := b.pieces[me][KING];
    var attacks := lk.king(TrailingZeros(king));
    var km := KindMask(b, me, attacks, kind);
    EmptyWithin(km);
    TargetMovesKeep(b, me, Lowest(king), km, attacks, KING, kind);
    if kind == OnlyCaptures {
      KeepNone(b, me, kind);
    } else {
      CastleMovesKeep(b, me, kind, castling);
    }
    KeepConcat(b, me, kind, TargetMoves(b, me, Lowest(king), km, KING, kind),
      if kind == OnlyCaptures then [] else CastleMoves(b, me, castling));
  }

  /**
   * `get_pseudo_legal_moves` keeps to its mode: in All no move lands on one of the
   * mover's pieces, in OnlySilent every move captures nothing and lands on an empty
   * square, and in OnlyCaptures every move captures an opponent's piece, which stands on
   * its target unless the capture is en passant.
   */
  lemma PseudoLegalKeepsKind(lk: Lookups, p: PositionValue, kind: MoveGenKind)
    requires WellFormed(p) && p.board.pieces[p.sideToMove][KING] != 0 && Consistent(p.board)
    ensures AllKeepKind(p.board, p.sideToMove, kind, PseudoLegal(lk, p, kind))
  {
    var b, me := p.board, p.sideToMove;
    PseudoLegalParts(lk, p, kind);
    hide PseudoLegal, PawnMoves, PieceMoves, KingMoves, PawnsMoves, PiecesMoves, AllKeepKind, Consistent, WellFormed;
    var pawns, knights, kings := PawnMoves(b, me, p.state.enPassant, kind), PieceMoves(lk, b, me, KNIGHT, kind),
      KingMoves(lk, b, me, p.state.castling, kind);
    var rooks, bishops, queens := PieceMoves(lk, b, me, ROOK, kind), PieceMoves(lk, b, me, BISHOP, kind),
      PieceMoves(lk, b, me, QUEEN, kind);
    PawnMovesKeep(b, me, p.state.enPassant, kind);
    PieceMovesKeep(lk, b, me, KNIGHT, kind);
    KingMovesKeep(lk, b, me, p.state.castling, kind);
    PieceMovesKeep(lk, b, me, ROOK, kind);
    PieceMovesKeep(lk, b, me, BISHOP, kind);
    PieceMovesKeep(lk, b, me, QUEEN, kind);
    KeepConcat(b, me, kind, pawns, knights);
    KeepConcat(b, me, kind, pawns + knights, kings);
    KeepConcat(b, me, kind, pawns + knights + kings, rooks);
    KeepConcat(b, me, kind, pawns + knights + kings + rooks, bishops);
    KeepConcat(b, me, kind, pawns + knights + kings + rooks + bishops, queens);
  }

  lemma PawnMovesKeep(b: PiecePosition, me: nat, ep: bv64, kind: MoveGenKind)
    requires Consistent(b) && me < 2
    ensures AllKeepKind(b, me, kind, PawnMoves(b, me, ep, kind))
  {
    PawnsMovesKeep(b, me, ep, b.pieces[me][PAWN], kind);
  }

  lemma PieceMovesKeep(lk: Lookups, b: PiecePosition, me: nat, piece: nat, kind: MoveGenKind)
    requires Consistent(b) && me < 2 && piece < 6
    ensures AllKeepKind(b, me, kind, PieceMoves(lk, b, me, piece, kind))
  {
    PiecesMovesKeep(lk, b, me, b.pieces[me][piece], piece, kind);
  }

  /** `get_legal_moves` keeps to its mode too: it keeps only moves of the pseudo-legal list. */
  lemma LegalMovesKeepKind(lk: Lookups, p: PositionValue, kind: MoveGenKind)
    requires WellFormed(p) && p.board.pieces[p.sideToMove][KING] != 0 && Consistent(p.board)
    ensures AllKeepKind(p.board, p.sideToMove, kind, LegalMoves(lk, p, kind))
  {
    var ms := PseudoLegal(lk, p, kind);
    PseudoLegalKeepsKind(lk, p, kind);
    hide PseudoLegal, LegalOf, KeepsKind, Consistent;
    forall i | 0 <= i < |LegalMoves(lk, p, kind)|
      ensures KeepsKind(p.board, p.sideToMove, kind, LegalMoves(lk, p, kind)[i])
    {
      var mi := LegalMoves(lk, p, kind)[i];
      LegalOfWithin(lk, p, ms, mi);
    }
  }

  // ---- Promotions and double pushes ----

  /**
   * What the pawn generator promises of each of its moves: it is a pawn move from a
   * square (never a castle); a plain move starts off the promotion rank and a promotion
   * on it; and a plain move two ranks ahead is a double push, from the start rank with
   * the square passed over and the target both empty.
   */
  predicate PawnMoveOk(b: PiecePosition, me: nat, mi: MoveInfo)
    requires Shaped(b)
  {
    && mi.piece == PAWN && !mi.m.Castle?
    && (mi.m.Normal? ==> mi.m.from & PromotionRow(me) == 0)
    && (mi.m.Promotion? ==> mi.m.from & PromotionRow(me) != 0)
    && (mi.m.Normal? && mi.m.to == TwoAhead(me, mi.m.from) ==>
          && mi.m.from & StartRow(me) != 0
          && IsSquareEmpty(b, OneAhead(me, mi.m.from)) && IsSquareEmpty(b, mi.m.to))
  }

  predicate AllPawnOk(b: PiecePosition, me: nat, ms: seq<MoveInfo>)
    requires Shaped(b)
  {
    forall i :: 0 <= i < |ms| ==> PawnMoveOk(b, me, ms[i])
  }

  lemma PawnOkConcat(b: PiecePosition, me: nat, ms: seq<MoveInfo>, ns: seq<MoveInfo>)
    requires Shaped(b) && AllPawnOk(b, me, ms) && AllPawnOk(b, me, ns)
    ensures AllPawnOk(b, me, ms + ns)
  {
    hide PawnMoveOk;
    forall i | 0 <= i < |ms + ns| ensures PawnMoveOk(b, me, (ms + ns)[i]) {
      if i < |ms| {
        assert (ms + ns)[i] == ms[i];
      } else {
        assert (ms + ns)[i] == ns[i - |ms|];
      }
    }
  }

  lemma PawnOkNone(b: PiecePosition, me: nat)
    requires Shaped(b)
    ensures AllPawnOk(b, me, [])
  {}

  /** A square one rank ahead, or a diagonal capture square, is never also two ranks ahead. */
  lemma NotTwoAhead(me: nat, s: bv64, index: nat)
    ensures OneAhead(me, s) != 0 ==> OneAhead(me, s) != TwoAhead(me, s)
    ensures CaptureLeft(me, s, index) != 0 ==> CaptureLeft(me, s, index) != TwoAhead(me, s)
    ensures CaptureRight(me, s, index) != 0 ==> CaptureRight(me, s, index) != TwoAhead(me, s)
  {
    if me == WHITE {
      LeftShiftsApart(s);
    } else {
      RightShiftsApart(s);
    }
  }

  lemma LeftShiftsApart(s: bv64)
    ensures s << 8 != 0 ==> s << 8 != s << 16
    ensures s << 7 != 0 ==> s << 7 != s << 16
    ensures s << 9 != 0 ==> s << 9 != s << 16
  {}

  lemma RightShiftsApart(s: bv64)
    ensures s >> 8 != 0 ==> s >> 8 != s >> 16
    ensures s >> 7 != 0 ==> s >> 7 != s >> 16
    ensures s >> 9 != 0 ==> s >> 9 != s >> 16
  {}

  /** A single square on the start rank is not on the promotion rank. */
  lemma RowsApart(me: nat, s: bv64)
    requires IsSingle(s) && s & StartRow(me) != 0
    ensures s & PromotionRow(me) == 0
  {}

  /** A step to a square not two ranks ahead is a plain move off the promotion rank, or four promotions on it. */
  lemma PawnStepOk(b: PiecePosition, me: nat, from: bv64, to: bv64, isPromotion: bool, captured: Option<nat>)
    requires Shaped(b) && isPromotion == (from & PromotionRow(me) != 0) && to != TwoAhead(me, from)
    ensures AllPawnOk(b, me, PawnStep(from, to, isPromotion, captured))
  {
    hide AllPawnOk, PawnMoveOk, IsSquareEmpty, OneAhead, TwoAhead, StartRow, PromotionRow;
    if isPromotion {
      PromotionsOk(b, me, from, to, captured);
    } else {
      PlainOk(b, me, from, to, captured);
    }
  }

  lemma PromotionsOk(b: PiecePosition, me: nat, from: bv64, to: bv64, captured: Option<nat>)
    requires Shaped(b) && from & PromotionRow(me) != 0
    ensures AllPawnOk(b, me, PawnStep(from, to, true, captured))
  {
    hide PawnMoveOk, PromotionRow;
    PromotionOk(b, me, from, to, QUEEN, captured);
    PromotionOk(b, me, from, to, ROOK, captured);
    PromotionOk(b, me, from, to, KNIGHT, captured);
    PromotionOk(b, me, from, to, BISHOP, captured);
  }

  lemma PromotionOk(b: PiecePosition, me: nat, from: bv64, to: bv64, piece: nat, captured: Option<nat>)
    requires Shaped(b) && from & PromotionRow(me) != 0
    ensures PawnMoveOk(b, me, MoveInfo(Promotion(from, to, piece), PAWN, captured))
  {
    hide IsSquareEmpty, OneAhead, TwoAhead, StartRow, PromotionRow;
  }

  lemma PlainOk(b: PiecePosition, me: nat, from: bv64, to: bv64, captured: Option<nat>)
    requires Shaped(b) && from & PromotionRow(me) == 0 && to != TwoAhead(me, from)
    ensures AllPawnOk(b, me, PawnStep(from, to, false, captured))
  {
    hide IsSquareEmpty, OneAhead, TwoAhead, StartRow, PromotionRow;
  }

  lemma PawnSingleOk(b: PiecePosition, me: nat, square: bv64)
    requires Shaped(b)
    ensures AllPawnOk(b, me, PawnSingle(b, me, square))
  {
    hide AllPawnOk, PawnStep, IsSquareEmpty, OneAhead, TwoAhead, PromotionRow, CaptureLeft, CaptureRight;
    var one := OneAhead(me, square);
    if one != 0 && IsSquareEmpty(b, one) {
      NotTwoAhead(me, square, 0);
      PawnStepOk(b, me, square, one, square & PromotionRow(me) != 0, None);
    } else {
      PawnOkNone(b, me);
    }
  }

  lemma PawnDoubleOk(b: PiecePosition, me: nat, square: bv64)
    requires Shaped(b) && IsSingle(square)
    ensures AllPawnOk(b, me, PawnDouble(b, me, square))
  {
    hide IsSquareEmpty, OneAhead, TwoAhead, IsSingle;
    if square & StartRow(me) != 0 {
      RowsApart(me, square);
    }
  }

  lemma PawnCaptureOk(b: PiecePosition, me: nat, square: bv64, to: bv64, isPromotion: bool)
    requires Shaped(b) && me < 2 && isPromotion == (square & PromotionRow(me) != 0)
    requires to != 0 ==> to != TwoAhead(me, square)
    ensures AllPawnOk(b, me, PawnCapture(b, me, square, to, isPromotion))
  {
    hide AllPawnOk, PawnStep, IsSquareEnemy, EnemyPieceInSquare, TwoAhead, PromotionRow;
    if to != 0 && IsSquareEnemy(b, me, to) {
      PawnStepOk(b, me, square, to, isPromotion, EnemyPieceInSquare(b, me, to, true));
    } else {
      PawnOkNone(b, me);
    }
  }

  lemma PawnEnPassantOk(b: PiecePosition, me: nat, square: bv64, ep: bv64, to1: bv64, to2: bv64)
    requires Shaped(b)
    ensures AllPawnOk(b, me, PawnEnPassant(b, square, ep, to1, to2))
  {
    hide IsSquareEmpty;
  }

  lemma PawnCapturesOk(b: PiecePosition, me: nat, ep: bv64, square: bv64, index: nat)
    requires Shaped(b) && me < 2
    ensures AllPawnOk(b, me, PawnCaptures(b, me, ep, square, index))
  {
    hide AllPawnOk, PawnCapture, PawnEnPassant, CaptureLeft, CaptureRight, TwoAhead, OneAhead, PromotionRow;
    var isPromotion := square & PromotionRow(me) != 0;
    var to1, to2 := CaptureLeft(me, square, index), CaptureRight(me, square, index);
    NotTwoAhead(me, square, index);
    PawnCaptureOk(b, me, square, to1, isPromotion);
    PawnCaptureOk(b, me, square, to2, isPromotion);
    PawnEnPassantOk(b, me, square, ep, to1, to2);
    PawnOkConcat(b, me, PawnCapture(b, me, square, to1, isPromotion), PawnCapture(b, me, square, to2, isPromotion));
    PawnOkConcat(b, me, PawnCapture(b, me, square, to1, isPromotion) + PawnCapture(b, me, square, to2, isPromotion),
      PawnEnPassant(b, square, ep, to1, to2));
  }

  lemma PawnMovesFromOk(b: PiecePosition, me: nat, ep: bv64, square: bv64, index: nat, kind: MoveGenKind)
    requires Shaped(b) && me < 2 && IsSingle(square)
    ensures AllPawnOk(b, me, PawnMovesFrom(b, me, ep, square, index, kind))
  {
    hide AllPawnOk, PawnSingle, PawnDouble, PawnCaptures, IsSingle;
    var pushes := if kind == OnlyCaptures then [] else PawnPushes(b, me, square);
    var captures := if kind == OnlySilent then [] else PawnCaptures(b, me, ep, square, index);
    PawnOkNone(b, me);
    PawnSingleOk(b, me, square);
    PawnDoubleOk(b, me, square);
    PawnOkConcat(b, me, PawnSingle(b, me, square), PawnDouble(b, me, square));
    PawnCapturesOk(b, me, ep, square, index);
    PawnOkConcat(b, me, pushes, captures);
  }

  /**
   * Every move of `get_pawn_moves` is a pawn move that promotes exactly from the
   * promotion rank, and every plain move two ranks ahead is a double push from the start
   * rank over two empty squares.
   */
  lemma {:induction false} PawnsMovesOk(b: PiecePosition, me: nat, ep: bv64, pawns: bv64, kind: MoveGenKind)
    requires Shaped(b) && me < 2
    ensures AllPawnOk(b, me, PawnsMoves(b, me, ep, pawns, kind))
    decreases PopCount(pawns)
  {
    if pawns == 0 {
      PawnsMovesNone(b, me, ep, kind);
      PawnOkNone(b, me);
    } else {
      var index, square := TrailingZeros(pawns), Lowest(pawns);
      PawnsMovesStep(b, me, ep, pawns, kind, index, square);
      hide TrailingZeros, Lowest, PawnsMoves, PawnMovesFrom, AllPawnOk;
      LowestSingle(pawns);
      PawnMovesFromOk(b, me, ep, square, index, kind);
      PawnsMovesOk(b, me, ep, pawns & (pawns - 1), kind);
      PawnOkConcat(b, me, PawnMovesFrom(b, me, ep, square, index, kind), PawnsMoves(b, me, ep, pawns & (pawns - 1), kind));
    }
  }

  /**
   * The promotions of a list come in blocks of four, to queen, rook, knight and bishop,
   * each block with one origin, one target and one captured piece.
   */
  predicate PromotionsInFours(ms: seq<MoveInfo>)
    decreases |ms|
  {
    if ms == [] then true
    else if !ms[0].m.Promotion? then PromotionsInFours(ms[1..])
    else |ms| >= 4 && ms[..4] == PawnStep(ms[0].m.from, ms[0].m.to, true, ms[0].capturedPiece) && PromotionsInFours(ms[4..])
  }

  lemma {:induction false} FoursConcat(ms: seq<MoveInfo>, ns: seq<MoveInfo>)
    requires PromotionsInFours(ms) && PromotionsInFours(ns)
    ensures PromotionsInFours(ms + ns)
    decreases |ms|
  {
    if ms == [] {
      assert ms + ns == ns;
    } else if !ms[0].m.Promotion? {
      assert (ms + ns)[0] == ms[0] && (ms + ns)[1..] == ms[1..] + ns;
      FoursConcat(ms[1..], ns);
    } else {
      assert (ms + ns)[0] == ms[0] && (ms + ns)[..4] == ms[..4] && (ms + ns)[4..] == ms[4..] + ns;
      FoursConcat(ms[4..], ns);
    }
  }

  /** A pawn step is a plain move or a block of four promotions. */
  lemma StepInFours(from: bv64, to: bv64, isPromotion: bool, captured: Option<nat>)
    ensures PromotionsInFours(PawnStep(from, to, isPromotion, captured))
  {
    var ms := PawnStep(from, to, isPromotion, captured);
    if isPromotion {
      assert ms[..4] == ms && ms[4..] == [];
    } else {
      assert ms[1..] == [];
    }
  }

  lemma NoneInFours()
    ensures PromotionsInFours([])
  {}

  lemma OneInFours(mi: MoveInfo)
    requires !mi.m.Promotion?
    ensures PromotionsInFours([mi])
  {
    assert [mi][1..] == [];
  }

  lemma PawnMovesFromInFours(b: PiecePosition, me: nat, ep: bv64, square: bv64, index: nat, kind: MoveGenKind)
    requires Shaped(b) && me < 2
    ensures PromotionsInFours(PawnMovesFrom(b, me, ep, square, index, kind))
  {
    hide PromotionsInFours, PawnStep, IsSquareEmpty, IsSquareEnemy, EnemyPieceInSquare, OneAhead, TwoAhead, CaptureLeft,
      CaptureRight, PromotionRow, StartRow;
    var isPromotion := square & PromotionRow(me) != 0;
    var one, two := OneAhead(me, square), TwoAhead(me, square);
    var to1, to2 := CaptureLeft(me, square, index), CaptureRight(me, square, index);
    StepInFours(square, one, isPromotion, None);
    OneInFours(MoveInfo(Normal(square, two), PAWN, None));
    StepInFours(square, to1, isPromotion, EnemyPieceInSquare(b, me, to1, true));
    StepInFours(square, to2, isPromotion, EnemyPieceInSquare(b, me, to2, true));
    OneInFours(MoveInfo(EnPassant(square, ep), PAWN, Some(PAWN)));
    var single, double := PawnSingle(b, me, square), PawnDouble(b, me, square);
    var c1, c2, e := PawnCapture(b, me, square, to1, isPromotion), PawnCapture(b, me, square, to2, isPromotion),
      PawnEnPassant(b, square, ep, to1, to2);
    NoneInFours();
    FoursConcat(single, double);
    FoursConcat(c1, c2);
    FoursConcat(c1 + c2, e);
    FoursConcat(if kind == OnlyCaptures then [] else single + double, if kind == OnlySilent then [] else c1 + c2 + e);
  }

  /** The promotions `get_pawn_moves` generates come in blocks of four: queen, rook, knight, bishop. */
  lemma {:induction false} PawnsMovesInFours(b: PiecePosition, me: nat, ep: bv64, pawns: bv64, kind: MoveGenKind)
    requires Shaped(b) && me < 2
    ensures PromotionsInFours(PawnsMoves(b, me, ep, pawns, kind))
    decreases PopCount(pawns)
  {
    if pawns == 0 {
      PawnsMovesNone(b, me, ep, kind);
    } else {
      var index, square := TrailingZeros(pawns), Lowest(pawns);
      PawnsMovesStep(b, me, ep, pawns, kind, index, square);
      hide TrailingZeros, Lowest, PawnsMoves, PawnMovesFrom, PromotionsInFours;
      PawnMovesFromInFours(b, me, ep, square, index, kind);
      PawnsMovesInFours(b, me, ep, pawns & (pawns - 1), kind);
      FoursConcat(PawnMovesFrom(b, me, ep, square, index, kind), PawnsMoves(b, me, ep, pawns & (pawns - 1), kind));
    }
  }

  // ---- Castles ----

  /** The squares between king and rook that `get_king_moves` wants empty for each castle. */
  function CastlePath(c: bv8): seq<bv64>
  {
    if c == WHITE_KING_SIDE then [F1, G1]
    else if c == WHITE_QUEEN_SIDE then [B1, C1, D1]
    else if c == BLACK_KING_SIDE then [F8, G8]
    else if c == BLACK_QUEEN_SIDE then [B8, C8, D8]
    else []
  }

  predicate PathEmpty(b: PiecePosition, c: bv8)
    requires Shaped(b)
  {
    forall j :: 0 <= j < |CastlePath(c)| ==> IsSquareEmpty(b, CastlePath(c)[j])
  }

  /** `c` is one of the two castles of side `me`. */
  predicate OwnCastle(me: nat, c: bv8)
  {
    if me == WHITE then c == WHITE_KING_SIDE || c == WHITE_QUEEN_SIDE else c == BLACK_KING_SIDE || c == BLACK_QUEEN_SIDE
  }

  /** A plain move from `from` by `piece` to a square of `mask`. */
  predicate NormalIn(mi: MoveInfo, from: bv64, mask: bv64, piece: nat)
  {
    mi.m.Normal? && mi.m.from == from && mi.piece == piece && Within(mi.m.to, mask)
  }

  /** `TargetMoves` makes only plain moves, from `from`, each to a square of the mask. */
  lemma {:induction false} TargetMovesShape(b: PiecePosition, me: nat, from: bv64, mask: bv64, piece: nat, kind: MoveGenKind)
    requires Shaped(b) && me < 2
    ensures forall i :: 0 <= i < |TargetMoves(b, me, from, mask, piece, kind)| ==>
      NormalIn(TargetMoves(b, me, from, mask, piece, kind)[i], from, mask, piece)
    decreases PopCount(mask)
  {
    hide Lowest, Captured, TargetMoves, Within;
    if mask == 0 {
      TargetMovesNone(b, me, from, piece, kind);
    } else {
      var rest := mask & (mask - 1);
      var mi := MoveInfo(Normal(from, Lowest(mask)), piece, Captured(b, me, Lowest(mask), kind));
      var ms := TargetMoves(b, me, from, rest, piece, kind);
      TargetMovesStep(b, me, from, mask, piece, kind);
      LowestSplit(mask);
      TargetMovesShape(b, me, from, rest, piece, kind);
      forall i | 0 <= i < |ms| ensures NormalIn(ms[i], from, mask, piece) {
        WithinTrans(ms[i].m.to, rest, mask);
      }
      assert forall i | 0 <= i < |[mi] + ms| :: ([mi] + ms)[i] == if i == 0 then mi else ms[i - 1];
    }
  }

  /** The castling right `c` is held in `castling`. */
  predicate HasRight(castling: bv8, c: bv8)
  {
    castling & c != 0
  }

  /** `CastleIf` adds its one castle exactly when the right is held and the path is free. */
  lemma CastleIfExact(castling: bv8, flag: bv8, free: bool, c: bv8)
    ensures forall i :: 0 <= i < |CastleIf(castling, flag, free)| ==> CastleIf(castling, flag, free)[i] == MoveInfo(Castle(flag), KING, None)
    ensures MoveInfo(Castle(c), KING, None) in CastleIf(castling, flag, free) <==> c == flag && HasRight(castling, flag) && free
  {
  }

  /** A two-square path is empty when both its squares are. */
  lemma TwoEmpty(b: PiecePosition, p: seq<bv64>, x: bv64, y: bv64)
    requires Shaped(b) && p == [x, y]
    ensures (forall j :: 0 <= j < |p| ==> IsSquareEmpty(b, p[j])) <==> IsSquareEmpty(b, x) && IsSquareEmpty(b, y)
  {
    hide IsSquareEmpty;
    assert p[0] == x && p[1] == y;
    if IsSquareEmpty(b, x) && IsSquareEmpty(b, y) {
      forall j | 0 <= j < |p| ensures IsSquareEmpty(b, p[j]) {
        assert j == 0 || j == 1;
      }
    }
  }

  /** A three-square path is empty when all three squares are. */
  lemma ThreeEmpty(b: PiecePosition, p: seq<bv64>, x: bv64, y: bv64, z: bv64)
    requires Shaped(b) && p == [x, y, z]
    ensures (forall j :: 0 <= j < |p| ==> IsSquareEmpty(b, p[j])) <==> IsSquareEmpty(b, x) && IsSquareEmpty(b, y) && IsSquareEmpty(b, z)
  {
    hide IsSquareEmpty;
    assert p[0] == x && p[1] == y && p[2] == z;
    if IsSquareEmpty(b, x) && IsSquareEmpty(b, y) && IsSquareEmpty(b, z) {
      forall j | 0 <= j < |p| ensures IsSquareEmpty(b, p[j]) {
        assert j == 0 || j == 1 || j == 2;
      }
    }
  }

  lemma WhitePaths(b: PiecePosition)
    requires Shaped(b)
    ensures PathEmpty(b, WHITE_KING_SIDE) <==> IsSquareEmpty(b, F1) && IsSquareEmpty(b, G1)
    ensures PathEmpty(b, WHITE_QUEEN_SIDE) <==> IsSquareEmpty(b, B1) && IsSquareEmpty(b, C1) && IsSquareEmpty(b, D1)
  {
    hide IsSquareEmpty;
    TwoEmpty(b, CastlePath(WHITE_KING_SIDE), F1, G1);
    ThreeEmpty(b, CastlePath(WHITE_QUEEN_SIDE), B1, C1, D1);
  }

  lemma BlackPaths(b: PiecePosition)
    requires Shaped(b)
    ensures PathEmpty(b, BLACK_KING_SIDE) <==> IsSquareEmpty(b, F8) && IsSquareEmpty(b, G8)
    ensures PathEmpty(b, BLACK_QUEEN_SIDE) <==> IsSquareEmpty(b, B8) && IsSquareEmpty(b, C8) && IsSquareEmpty(b, D8)
  {
    hide IsSquareEmpty;
    TwoEmpty(b, CastlePath(BLACK_KING_SIDE), F8, G8);
    ThreeEmpty(b, CastlePath(BLACK_QUEEN_SIDE), B8, C8, D8);
  }

  /** Two castle checks in a row: each move is one of the two castles, and a castle is in the list exactly when its check passes. */
  lemma TwoCastles(castling: bv8, k: bv8, freeK: bool, q: bv8, freeQ: bool, c: bv8)
    ensures forall i :: 0 <= i < |CastleIf(castling, k, freeK) + CastleIf(castling, q, freeQ)| ==>
      (CastleIf(castling, k, freeK) + CastleIf(castling, q, freeQ))[i] in {MoveInfo(Castle(k), KING, None), MoveInfo(Castle(q), KING, None)}
    ensures MoveInfo(Castle(c), KING, None) in CastleIf(castling, k, freeK) + CastleIf(castling, q, freeQ) <==>
      (c == k && HasRight(castling, k) && freeK) || (c == q && HasRight(castling, q) && freeQ)
  {
    hide CastleIf, HasRight;
    CastleIfExact(castling, k, freeK, c);
    CastleIfExact(castling, q, freeQ, c);
    var a, d := CastleIf(castling, k, freeK), CastleIf(castling, q, freeQ);
    forall i | 0 <= i < |a + d| ensures (a + d)[i] in {MoveInfo(Castle(k), KING, None), MoveInfo(Castle(q), KING, None)} {
      if i < |a| { assert (a + d)[i] == a[i]; } else { assert (a + d)[i] == d[i - |a|]; }
    }
  }

  /** The castles `get_king_moves` may add: each the mover's own, with its right held and its path empty. */
  lemma CastleMovesExact(b: PiecePosition, me: nat, castling: bv8, c: bv8)
    requires Shaped(b) && me < 2
    ensures forall i :: 0 <= i < |CastleMoves(b, me, castling)| ==>
      var mi := CastleMoves(b, me, castling)[i];
      mi.m.Castle? && mi == MoveInfo(Castle(mi.m.castling), KING, None) && OwnCastle(me, mi.m.castling)
    ensures MoveInfo(Castle(c), KING, None) in CastleMoves(b, me, castling) <==>
      OwnCastle(me, c) && HasRight(castling, c) && PathEmpty(b, c)
  {
    hide IsSquareEmpty, CastleIf, HasRight, PathEmpty;
    if me == WHITE {
      WhitePaths(b);
      TwoCastles(castling, WHITE_KING_SIDE, IsSquareEmpty(b, F1) && IsSquareEmpty(b, G1),
        WHITE_QUEEN_SIDE, IsSquareEmpty(b, B1) && IsSquareEmpty(b, C1) && IsSquareEmpty(b, D1), c);
    } else {
      BlackPaths(b);
      TwoCastles(castling, BLACK_KING_SIDE, IsSquareEmpty(b, F8) && IsSquareEmpty(b, G8),
        BLACK_QUEEN_SIDE, IsSquareEmpty(b, B8) && IsSquareEmpty(b, C8) && IsSquareEmpty(b, D8), c);
    }
  }

  /** The castle `c` is the mover's own, its right is held and its path is empty. */
  predicate CastleAllowed(b: PiecePosition, me: nat, castling: bv8, c: bv8)
    requires Shaped(b)
  {
    OwnCastle(me, c) && HasRight(castling, c) && PathEmpty(b, c)
  }

  /** A list of plain moves holds no castle. */
  lemma NormalsNoCastle(ms: seq<MoveInfo>, from: bv64, mask: bv64, piece: nat, c: bv8)
    requires forall i :: 0 <= i < |ms| ==> NormalIn(ms[i], from, mask, piece)
    ensures forall i :: 0 <= i < |ms| ==> !ms[i].m.Castle?
    ensures MoveInfo(Castle(c), KING, None) !in ms
  {
  }

  /** Castles of `ts + cs` when `ts` holds none: those of `cs`. */
  lemma CastlesOfTail(b: PiecePosition, me: nat, castling: bv8, ts: seq<MoveInfo>, cs: seq<MoveInfo>)
    requires Shaped(b)
    requires forall i :: 0 <= i < |ts| ==> !ts[i].m.Castle?
    requires forall i :: 0 <= i < |cs| && cs[i].m.Castle? ==> CastleAllowed(b, me, castling, cs[i].m.castling)
    ensures forall i :: 0 <= i < |ts + cs| && (ts + cs)[i].m.Castle? ==> CastleAllowed(b, me, castling, (ts + cs)[i].m.castling)
  {
    hide CastleAllowed;
    forall i | 0 <= i < |ts + cs| && (ts + cs)[i].m.Castle?
      ensures CastleAllowed(b, me, castling, (ts + cs)[i].m.castling)
    {
      assert i >= |ts| ==> (ts + cs)[i] == cs[i - |ts|];
    }
  }

  /**
   * Castling generation: `get_king_moves` adds the castle `c` exactly when captures are
   * not the only moves asked for, `c` is one of the mover's castles, its right is held and
   * the squares between king and rook are empty; the king's table moves are plain moves.
   */
  lemma CastleGenerated(lk: Lookups, b: PiecePosition, me: nat, castling: bv8, kind: MoveGenKind, c: bv8)
    requires Shaped(b) && me < 2 && b.pieces[me][KING] != 0
    ensures MoveInfo(Castle(c), KING, None) in KingMoves(lk, b, me, castling, kind) <==>
      kind != OnlyCaptures && CastleAllowed(b, me, castling, c)
    ensures forall i :: 0 <= i < |KingMoves(lk, b, me, castling, kind)| && KingMoves(lk, b, me, castling, kind)[i].m.Castle? ==>
      CastleAllowed(b, me, castling, KingMoves(lk, b, me, castling, kind)[i].m.castling)
  {
    var king := b.pieces[me][KING];
    var ts := TargetMoves(b, me, Lowest(king), KindMask(b, me, lk.king(TrailingZeros(king)), kind), KING, kind);
    var cs := if kind == OnlyCaptures then [] else CastleMoves(b, me, castling);
    assert KingMoves(lk, b, me, castling, kind) == ts + cs;
    hide KingMoves, TargetMoves, CastleMoves, OwnCastle, PathEmpty, NormalIn, Lowest, TrailingZeros, KindMask, HasRight;
    TargetMovesShape(b, me, Lowest(king), KindMask(b, me, lk.king(TrailingZeros(king)), kind), KING, kind);
    NormalsNoCastle(ts, Lowest(king), KindMask(b, me, lk.king(TrailingZeros(king)), kind), KING, c);
    CastleMovesExact(b, me, castling, c);
    if kind != OnlyCaptures {
      forall i | 0 <= i < |cs| && cs[i].m.Castle? ensures CastleAllowed(b, me, castling, cs[i].m.castling) {
        CastleMovesExact(b, me, castling, cs[i].m.castling);
      }
    }
    CastlesOfTail(b, me, castling, ts, cs);
  }
}
