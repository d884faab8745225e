/**
 * Sliding-piece attack tables (src/movegen/magic.rs): the relevant-occupancy
 * masks of rooks and bishops, their attack sets computed ray by ray, the
 * enumeration of the subsets of a mask, the magic-multiplication index into
 * the precomputed tables, and the king and knight lookup tables.
 *
 * A square is a rank r and a file f (index 8 * r + f). A ray starts on a
 * square next to the piece and walks in one of the eight directions (dr, df);
 * `Ray(r0, f0, dr, df, r, f)` is the set of squares the walk visits from
 * (r0, f0) up to but excluding (r, f). The mask walk stops before the board
 * edge in its direction of travel (`MaskEnd`); the attack walk stops after
 * the first blocked square or at the edge (`AttackEnd`).
 */
module Magic {
  import opened Bits
  import opened Tables

  // ---- Board geometry ----

  predicate OnBoard(r: int, f: int) {
    0 <= r < 8 && 0 <= f < 8
  }

  /** One of the eight king-step directions. */
  predicate Direction(dr: int, df: int) {
    -1 <= dr <= 1 && -1 <= df <= 1 && (dr != 0 || df != 0)
  }

  function Dist(x: int, y: int): nat {
    if x >= y then x - y else y - x
  }

  /** x is at or beyond x0 when moving in direction d (equal when d is 0). */
  predicate Along(x: int, x0: int, d: int) {
    if d > 0 then x >= x0 else if d < 0 then x <= x0 else x == x0
  }

  /** (r, f) lies on the walk that starts at (r0, f0) in direction (dr, df). */
  predicate Aligned(r0: int, f0: int, dr: int, df: int, r: int, f: int) {
    Along(r, r0, dr) && Along(f, f0, df) && (dr != 0 && df != 0 ==> Dist(r, r0) == Dist(f, f0))
  }

  /** Steps left before a walk in direction d leaves the board along x. */
  function Reach(x: int, d: int): int {
    if d > 0 then 7 - x else if d < 0 then x else 0
  }

  /** The squares visited from (r0, f0) up to but excluding (r, f). */
  function Ray(r0: int, f0: int, dr: int, df: int, r: int, f: int): bv64
    requires Direction(dr, df)
    decreases Dist(r, r0) + Dist(f, f0)
  {
    if (r, f) != (r0, f0) && Aligned(r0, f0, dr, df, r, f) && OnBoard(r - dr, f - df) then
      Ray(r0, f0, dr, df, r - dr, f - df) | Bit(8 * (r - dr) + (f - df))
    else 0
  }

  /** The mask walk continues while it is on the board and not on the last rank or file it heads for. */
  predicate Inner(r: int, f: int, dr: int, df: int) {
    OnBoard(r, f) &&
    (dr > 0 ==> r <= 6) && (dr < 0 ==> r >= 1) && (df > 0 ==> f <= 6) && (df < 0 ==> f >= 1)
  }

  /** Where the mask walk from (r, f) stops. */
  function MaskEnd(r: int, f: int, dr: int, df: int): (int, int)
    requires Direction(dr, df)
    decreases Reach(r, dr) + Reach(f, df)
  {
    if Inner(r, f, dr, df) then MaskEnd(r + dr, f + df, dr, df) else (r, f)
  }

  /** Where the attack walk from (r, f) stops: just past the first blocked square, or off the board. */
  function AttackEnd(r: int, f: int, dr: int, df: int, block: bv64): (int, int)
    requires Direction(dr, df)
    decreases Reach(r, dr) + Reach(f, df)
  {
    if !OnBoard(r, f) then (r, f)
    else if Has(block, 8 * r + f) then (r + dr, f + df)
    else AttackEnd(r + dr, f + df, dr, df, block)
  }

  function MaskRay(r: int, f: int, dr: int, df: int): bv64
    requires Direction(dr, df)
  {
    var e := MaskEnd(r, f, dr, df);
    Ray(r, f, dr, df, e.0, e.1)
  }

  function AttackRay(r: int, f: int, dr: int, df: int, block: bv64): bv64
    requires Direction(dr, df)
  {
    var e := AttackEnd(r, f, dr, df, block);
    Ray(r, f, dr, df, e.0, e.1)
  }

  // ---- One step of a walk ----

  lemma RayStart(r0: int, f0: int, dr: int, df: int)
    requires Direction(dr, df)
    ensures Ray(r0, f0, dr, df, r0, f0) == 0 && Aligned(r0, f0, dr, df, r0, f0)
  {}

  lemma RayExtend(r0: int, f0: int, dr: int, df: int, r: int, f: int)
    requires Direction(dr, df) && Aligned(r0, f0, dr, df, r, f) && OnBoard(r, f)
    ensures Ray(r0, f0, dr, df, r + dr, f + df) == Ray(r0, f0, dr, df, r, f) | Bit(8 * r + f)
    ensures Aligned(r0, f0, dr, df, r + dr, f + df)
  {}

  lemma RayBack(r0: int, f0: int, dr: int, df: int, r: int, f: int)
    requires Direction(dr, df)
    requires (r, f) != (r0, f0) && Aligned(r0, f0, dr, df, r, f) && OnBoard(r - dr, f - df)
    ensures Ray(r0, f0, dr, df, r, f) == Ray(r0, f0, dr, df, r - dr, f - df) | Bit(8 * (r - dr) + (f - df))
  {}

  lemma StepCloser(r0: int, f0: int, dr: int, df: int, r: int, f: int)
    requires Direction(dr, df) && (r, f) != (r0, f0) && Aligned(r0, f0, dr, df, r, f)
    ensures Dist(r - dr, r0) + Dist(f - df, f0) < Dist(r, r0) + Dist(f, f0)
    ensures Aligned(r0, f0, dr, df, r - dr, f - df)
  {}

  lemma RayNone(r0: int, f0: int, dr: int, df: int, r: int, f: int)
    requires Direction(dr, df)
    requires !((r, f) != (r0, f0) && Aligned(r0, f0, dr, df, r, f) && OnBoard(r - dr, f - df))
    ensures Ray(r0, f0, dr, df, r, f) == 0
  {}

  lemma MaskEndStep(r: int, f: int, dr: int, df: int)
    requires Direction(dr, df)
    ensures MaskEnd(r, f, dr, df) == if Inner(r, f, dr, df) then MaskEnd(r + dr, f + df, dr, df) else (r, f)
  {}

  lemma AttackEndStep(r: int, f: int, dr: int, df: int, block: bv64)
    requires Direction(dr, df) && OnBoard(r, f)
    ensures AttackEnd(r, f, dr, df, block) ==
      if Has(block, 8 * r + f) then (r + dr, f + df) else AttackEnd(r + dr, f + df, dr, df, block)
  {}

  lemma AttackEndOff(r: int, f: int, dr: int, df: int, block: bv64)
    requires Direction(dr, df) && !OnBoard(r, f)
    ensures AttackEnd(r, f, dr, df, block) == (r, f)
  {}

  // ---- The walks as loops ----

  /** One direction of mask_rook_attacks / mask_bishop_attacks (magic.rs:144-192, 252-289). */
  method MaskWalk(r0: int, f0: int, dr: int, df: int) returns (ray: bv64)
    requires Direction(dr, df)
    ensures ray == MaskRay(r0, f0, dr, df)
  {
    hide Bit, Ray, MaskEnd;
    RayStart(r0, f0, dr, df);
    ray := 0;
    var r, f := r0, f0;
    while Inner(r, f, dr, df)
      invariant MaskEnd(r, f, dr, df) == MaskEnd(r0, f0, dr, df)
      invariant Aligned(r0, f0, dr, df, r, f)
      invariant ray == Ray(r0, f0, dr, df, r, f)
      decreases Reach(r, dr) + Reach(f, df)
    {
      RayExtend(r0, f0, dr, df, r, f);
      MaskEndStep(r, f, dr, df);
      ray := ray | Bit(8 * r + f);
      r, f := r + dr, f + df;
    }
    MaskEndStep(r, f, dr, df);
  }

  /** One direction of rook_attacks_on_the_fly / bishop_attacks_on_the_fly (magic.rs:73-142, 194-250). */
  method AttackWalk(r0: int, f0: int, dr: int, df: int, block: bv64) returns (ray: bv64)
    requires Direction(dr, df)
    ensures ray == AttackRay(r0, f0, dr, df, block)
  {
    hide Bit, Has, Ray, AttackEnd;
    RayStart(r0, f0, dr, df);
    ray := 0;
    var r, f := r0, f0;
    while OnBoard(r, f)
      invariant AttackEnd(r, f, dr, df, block) == AttackEnd(r0, f0, dr, df, block)
      invariant Aligned(r0, f0, dr, df, r, f)
      invariant ray == Ray(r0, f0, dr, df, r, f)
      decreases Reach(r, dr) + Reach(f, df)
    {
      RayExtend(r0, f0, dr, df, r, f);
      AttackEndStep(r, f, dr, df, block);
      ray := ray | Bit(8 * r + f);
      if Has(block, 8 * r + f) {
        return;
      }
      r, f := r + dr, f + df;
    }
    AttackEndOff(r, f, dr, df, block);
  }

  lemma MaskRayOff(r: int, f: int, dr: int, df: int)
    requires Direction(dr, df) && !OnBoard(r, f)
    ensures MaskRay(r, f, dr, df) == 0
  {}

  lemma AttackRayOff(r: int, f: int, dr: int, df: int, block: bv64)
    requires Direction(dr, df) && !OnBoard(r, f)
    ensures AttackRay(r, f, dr, df, block) == 0
  {}

  lemma ZeroOr(x: bv64)
    ensures 0 | x == x && x | 0 == x
  {}

  // ---- Masks and attack sets of one square ----

  /** The relevant-occupancy mask of a rook on `square`: the four rank and file walks, each stopping before the board edge. */
  function RookMask(square: nat): bv64
    requires square < 64
  {
    var tr, tf := square / 8, square % 8;
    MaskRay(tr + 1, tf, 1, 0) | MaskRay(tr - 1, tf, -1, 0) | MaskRay(tr, tf + 1, 0, 1) | MaskRay(tr, tf - 1, 0, -1)
  }

  /** The relevant-occupancy mask of a bishop on `square`: the four diagonal walks, each stopping before the board edge. */
  function BishopMask(square: nat): bv64
    requires square < 64
  {
    var tr, tf := square / 8, square % 8;
    MaskRay(tr + 1, tf + 1, 1, 1) | MaskRay(tr + 1, tf - 1, 1, -1) | MaskRay(tr - 1, tf + 1, -1, 1) | MaskRay(tr - 1, tf - 1, -1, -1)
  }

  /** The squares a rook on `square` attacks when the squares in `block` are occupied. */
  function RookAttacks(square: nat, block: bv64): bv64
    requires square < 64
  {
    var tr, tf := square / 8, square % 8;
    AttackRay(tr + 1, tf, 1, 0, block) | AttackRay(tr - 1, tf, -1, 0, block) |
    AttackRay(tr, tf + 1, 0, 1, block) | AttackRay(tr, tf - 1, 0, -1, block)
  }

  /** The squares a bishop on `square` attacks when the squares in `block` are occupied. */
  function BishopAttacks(square: nat, block: bv64): bv64
    requires square < 64
  {
    var tr, tf := square / 8, square % 8;
    AttackRay(tr + 1, tf + 1, 1, 1, block) | AttackRay(tr + 1, tf - 1, 1, -1, block) |
    AttackRay(tr - 1, tf + 1, -1, 1, block) | AttackRay(tr - 1, tf - 1, -1, -1, block)
  }

  lemma RookMaskRays(square: nat, tr: nat, tf: nat)
    requires square < 64 && tr == square / 8 && tf == square % 8
    ensures RookMask(square) ==
      MaskRay(tr + 1, tf, 1, 0) | MaskRay(tr - 1, tf, -1, 0) | MaskRay(tr, tf + 1, 0, 1) | MaskRay(tr, tf - 1, 0, -1)
  {
    hide MaskRay;
  }

  lemma BishopMaskRays(square: nat, tr: nat, tf: nat)
    requires square < 64 && tr == square / 8 && tf == square % 8
    ensures BishopMask(square) ==
      MaskRay(tr + 1, tf + 1, 1, 1) | MaskRay(tr + 1, tf - 1, 1, -1) | MaskRay(tr - 1, tf + 1, -1, 1) | MaskRay(tr - 1, tf - 1, -1, -1)
  {
    hide MaskRay;
  }

  lemma RookAttacksRays(square: nat, tr: nat, tf: nat, block: bv64)
    requires square < 64 && tr == square / 8 && tf == square % 8
    ensures RookAttacks(square, block) ==
      AttackRay(tr + 1, tf, 1, 0, block) | AttackRay(tr - 1, tf, -1, 0, block) | AttackRay(tr, tf + 1, 0, 1, block) | AttackRay(tr, tf - 1, 0, -1, block)
  {
    hide AttackRay;
  }

  lemma BishopAttacksRays(square: nat, tr: nat, tf: nat, block: bv64)
    requires square < 64 && tr == square / 8 && tf == square % 8
    ensures BishopAttacks(square, block) ==
      AttackRay(tr + 1, tf + 1, 1, 1, block) | AttackRay(tr + 1, tf - 1, 1, -1, block) | AttackRay(tr - 1, tf + 1, -1, 1, block) | AttackRay(tr - 1, tf - 1, -1, -1, block)
  {
    hide AttackRay;
  }

  /** mask_rook_attacks (magic.rs:252-289). */
  method MaskRookAttacks(square: nat) returns (attacks: bv64)
    requires square < 64
    ensures attacks == RookMask(square)
  {
    hide MaskRay, RookMask;
    var tr, tf := square / 8, square % 8;
    RookMaskRays(square, tr, tf);
    attacks := 0;
    var ray := MaskWalk(tr + 1, tf, 1, 0);
    ZeroOr(ray);
    attacks := attacks | ray;
    ray := MaskWalk(tr - 1, tf, -1, 0);
    attacks := attacks | ray;
    ray := MaskWalk(tr, tf + 1, 0, 1);
    attacks := attacks | ray;
    ray := MaskWalk(tr, tf - 1, 0, -1);
    attacks := attacks | ray;
  }

  /** mask_bishop_attacks (magic.rs:144-192). */
  method MaskBishopAttacks(square: nat) returns (attacks: bv64)
    requires square < 64
    ensures attacks == BishopMask(square)
  {
    hide MaskRay, BishopMask;
    var tr, tf := square / 8, square % 8;
    BishopMaskRays(square, tr, tf);
    attacks := 0;
    var ray := MaskWalk(tr + 1, tf + 1, 1, 1);
    ZeroOr(ray);
    attacks := attacks | ray;
    ray := MaskWalk(tr + 1, tf - 1, 1, -1);
    attacks := attacks | ray;
    ray := MaskWalk(tr - 1, tf + 1, -1, 1);
    attacks := attacks | ray;
    ray := MaskWalk(tr - 1, tf - 1, -1, -1);
    attacks := attacks | ray;
  }

  /** rook_attacks_on_the_fly (magic.rs:194-250). */
  method RookAttacksOnTheFly(square: nat, block: bv64) returns (attacks: bv64)
    requires square < 64
    ensures attacks == RookAttacks(square, block)
  {
    hide AttackRay, RookAttacks;
    var tr, tf := square / 8, square % 8;
    RookAttacksRays(square, tr, tf, block);
    attacks := 0;
    var ray := AttackWalk(tr + 1, tf, 1, 0, block);
    ZeroOr(ray);
    attacks := attacks | ray;
    ray := AttackWalk(tr - 1, tf, -1, 0, block);
    attacks := attacks | ray;
    ray := AttackWalk(tr, tf + 1, 0, 1, block);
    attacks := attacks | ray;
    ray := AttackWalk(tr, tf - 1, 0, -1, block);
    attacks := attacks | ray;
  }

  /** bishop_attacks_on_the_fly (magic.rs:73-142). */
  method BishopAttacksOnTheFly(square: nat, block: bv64) returns (attacks: bv64)
    requires square < 64
    ensures attacks == BishopAttacks(square, block)
  {
    hide AttackRay, BishopAttacks;
    var tr, tf := square / 8, square % 8;
    BishopAttacksRays(square, tr, tf, block);
    attacks := 0;
    var ray := AttackWalk(tr + 1, tf + 1, 1, 1, block);
    ZeroOr(ray);
    attacks := attacks | ray;
    ray := AttackWalk(tr + 1, tf - 1, 1, -1, block);
    attacks := attacks | ray;
    ray := AttackWalk(tr - 1, tf + 1, -1, 1, block);
    attacks := attacks | ray;
    ray := AttackWalk(tr - 1, tf - 1, -1, -1, block);
    attacks := attacks | ray;
  }

  // ---- What the walks contain ----

  /** Two different squares on the board have different indices. */
  lemma IndexInjective(r: int, f: int, r': int, f': int)
    requires OnBoard(r, f) && OnBoard(r', f') && (r, f) != (r', f')
    ensures 8 * r + f != 8 * r' + f'
  {}

  lemma RayExcludesStep(r0: int, f0: int, dr: int, df: int, r: int, f: int)
    requires Direction(dr, df) && OnBoard(r0 - dr, f0 - df)
    requires (r, f) != (r0, f0) && Aligned(r0, f0, dr, df, r, f) && OnBoard(r - dr, f - df)
    requires Ray(r0, f0, dr, df, r - dr, f - df) & Bit(8 * (r0 - dr) + (f0 - df)) == 0
    ensures Ray(r0, f0, dr, df, r, f) & Bit(8 * (r0 - dr) + (f0 - df)) == 0
  {
    hide Bit, Ray;
    RayBack(r0, f0, dr, df, r, f);
    IndexInjective(r - dr, f - df, r0 - dr, f0 - df);
    BitsDisjoint(8 * (r - dr) + (f - df), 8 * (r0 - dr) + (f0 - df));
  }

  /** A walk never visits the square it starts next to (the piece's own square). */
  lemma {:induction false} RayExcludesOrigin(r0: int, f0: int, dr: int, df: int, r: int, f: int)
    requires Direction(dr, df) && OnBoard(r0 - dr, f0 - df)
    ensures Ray(r0, f0, dr, df, r, f) & Bit(8 * (r0 - dr) + (f0 - df)) == 0
    decreases Dist(r, r0) + Dist(f, f0)
  {
    hide Bit, Ray, Aligned, Dist;
    if (r, f) != (r0, f0) && Aligned(r0, f0, dr, df, r, f) && OnBoard(r - dr, f - df) {
      StepCloser(r0, f0, dr, df, r, f);
      RayExcludesOrigin(r0, f0, dr, df, r - dr, f - df);
      RayExcludesStep(r0, f0, dr, df, r, f);
    } else {
      RayNone(r0, f0, dr, df, r, f);
    }
  }

  lemma MaskRayExcludesOrigin(r: int, f: int, dr: int, df: int, square: nat)
    requires Direction(dr, df) && OnBoard(r - dr, f - df) && square == 8 * (r - dr) + (f - df)
    ensures MaskRay(r, f, dr, df) & Bit(square) == 0
  {
    var e := MaskEnd(r, f, dr, df);
    RayExcludesOrigin(r, f, dr, df, e.0, e.1);
  }

  lemma AttackRayExcludesOrigin(r: int, f: int, dr: int, df: int, block: bv64, square: nat)
    requires Direction(dr, df) && OnBoard(r - dr, f - df) && square == 8 * (r - dr) + (f - df)
    ensures AttackRay(r, f, dr, df, block) & Bit(square) == 0
  {
    var e := AttackEnd(r, f, dr, df, block);
    RayExcludesOrigin(r, f, dr, df, e.0, e.1);
  }

  /** The rook mask never contains the rook's own square. */
  lemma RookMaskExcludesSquare(square: nat)
    requires square < 64
    ensures RookMask(square) & Bit(square) == 0
  {
    hide Bit, MaskRay, RookMask;
    var tr, tf := square / 8, square % 8;
    RookMaskRays(square, tr, tf);
    MaskRayExcludesOrigin(tr + 1, tf, 1, 0, square);
    MaskRayExcludesOrigin(tr - 1, tf, -1, 0, square);
    MaskRayExcludesOrigin(tr, tf + 1, 0, 1, square);
    MaskRayExcludesOrigin(tr, tf - 1, 0, -1, square);
  }

  /** The bishop mask never contains the bishop's own square. */
  lemma BishopMaskExcludesSquare(square: nat)
    requires square < 64
    ensures BishopMask(square) & Bit(square) == 0
  {
    hide Bit, MaskRay, BishopMask;
    var tr, tf := square / 8, square % 8;
    BishopMaskRays(square, tr, tf);
    MaskRayExcludesOrigin(tr + 1, tf + 1, 1, 1, square);
    MaskRayExcludesOrigin(tr + 1, tf - 1, 1, -1, square);
    MaskRayExcludesOrigin(tr - 1, tf + 1, -1, 1, square);
    MaskRayExcludesOrigin(tr - 1, tf - 1, -1, -1, square);
  }

  /** A rook never attacks its own square, whatever the blockers. */
  lemma RookAttacksExcludeSquare(square: nat, block: bv64)
    requires square < 64
    ensures RookAttacks(square, block) & Bit(square) == 0
  {
    hide Bit, AttackRay, RookAttacks;
    var tr, tf := square / 8, square % 8;
    RookAttacksRays(square, tr, tf, block);
    AttackRayExcludesOrigin(tr + 1, tf, 1, 0, block, square);
    AttackRayExcludesOrigin(tr - 1, tf, -1, 0, block, square);
    AttackRayExcludesOrigin(tr, tf + 1, 0, 1, block, square);
    AttackRayExcludesOrigin(tr, tf - 1, 0, -1, block, square);
  }

  /** A bishop never attacks its own square, whatever the blockers. */
  lemma BishopAttacksExcludeSquare(square: nat, block: bv64)
    requires square < 64
    ensures BishopAttacks(square, block) & Bit(square) == 0
  {
    hide Bit, AttackRay, BishopAttacks;
    var tr, tf := square / 8, square % 8;
    BishopAttacksRays(square, tr, tf, block);
    AttackRayExcludesOrigin(tr + 1, tf + 1, 1, 1, block, square);
    AttackRayExcludesOrigin(tr + 1, tf - 1, 1, -1, block, square);
    AttackRayExcludesOrigin(tr - 1, tf + 1, -1, 1, block, square);
    AttackRayExcludesOrigin(tr - 1, tf - 1, -1, -1, block, square);
  }

  // ---- The walks read forwards ----

  lemma PrependGeometry(r0: int, f0: int, dr: int, df: int, r: int, f: int)
    requires Direction(dr, df) && OnBoard(r0, f0)
    requires Aligned(r0 + dr, f0 + df, dr, df, r, f) && (r, f) != (r0 + dr, f0 + df) && OnBoard(r - dr, f - df)
    ensures (r, f) != (r0, f0) && Aligned(r0, f0, dr, df, r, f)
    ensures (r - dr, f - df) != (r0 + dr, f0 + df) ==> (r - dr, f - df) != (r0, f0)
    ensures Aligned(r0 + dr, f0 + df, dr, df, r - dr, f - df)
    ensures (r - dr, f - df) == (r0 + dr, f0 + df) || OnBoard(r - dr - dr, f - df - df)
    ensures Dist(r - dr, r0) + Dist(f - df, f0) < Dist(r, r0) + Dist(f, f0)
  {}

  lemma PrependFirst(r0: int, f0: int, dr: int, df: int)
    requires Direction(dr, df) && OnBoard(r0, f0)
    ensures Ray(r0, f0, dr, df, r0 + dr, f0 + df) == Bit(8 * r0 + f0)
    ensures Ray(r0 + dr, f0 + df, dr, df, r0 + dr, f0 + df) == 0
  {
    hide Bit;
    RayStart(r0, f0, dr, df);
    RayExtend(r0, f0, dr, df, r0, f0);
    RayStart(r0 + dr, f0 + df, dr, df);
  }

  lemma RayPrependStep(r0: int, f0: int, dr: int, df: int, r: int, f: int)
    requires Direction(dr, df) && OnBoard(r0, f0)
    requires Aligned(r0 + dr, f0 + df, dr, df, r, f) && (r, f) != (r0 + dr, f0 + df) && OnBoard(r - dr, f - df)
    requires Ray(r0, f0, dr, df, r - dr, f - df) == Bit(8 * r0 + f0) | Ray(r0 + dr, f0 + df, dr, df, r - dr, f - df)
    ensures Ray(r0, f0, dr, df, r, f) == Bit(8 * r0 + f0) | Ray(r0 + dr, f0 + df, dr, df, r, f)
  {
    hide Bit, Ray;
    PrependGeometry(r0, f0, dr, df, r, f);
    RayBack(r0, f0, dr, df, r, f);
    RayBack(r0 + dr, f0 + df, dr, df, r, f);
  }

  /** A walk is its first square followed by the walk from the next square. */
  lemma {:induction false} RayPrepend(r0: int, f0: int, dr: int, df: int, r: int, f: int)
    requires Direction(dr, df) && OnBoard(r0, f0)
    requires Aligned(r0 + dr, f0 + df, dr, df, r, f)
    requires (r, f) == (r0 + dr, f0 + df) || OnBoard(r - dr, f - df)
    ensures Ray(r0, f0, dr, df, r, f) == Bit(8 * r0 + f0) | Ray(r0 + dr, f0 + df, dr, df, r, f)
    decreases Dist(r, r0) + Dist(f, f0)
  {
    hide Bit, Ray, Aligned, Dist, OnBoard, Direction;
    if (r, f) == (r0 + dr, f0 + df) {
      PrependFirst(r0, f0, dr, df);
    } else {
      PrependGeometry(r0, f0, dr, df, r, f);
      RayPrepend(r0, f0, dr, df, r - dr, f - df);
      RayPrependStep(r0, f0, dr, df, r, f);
    }
  }

  lemma ShapeExtend(r: int, f: int, dr: int, df: int, er: int, ef: int)
    requires Direction(dr, df) && OnBoard(r, f)
    requires Aligned(r + dr, f + df, dr, df, er, ef) && ((er, ef) == (r + dr, f + df) || OnBoard(er - dr, ef - df))
    ensures Aligned(r, f, dr, df, er, ef) && OnBoard(er - dr, ef - df)
  {}

  lemma {:induction false} MaskEndShape(r: int, f: int, dr: int, df: int)
    requires Direction(dr, df)
    ensures var e := MaskEnd(r, f, dr, df);
      Aligned(r, f, dr, df, e.0, e.1) && (e == (r, f) || OnBoard(e.0 - dr, e.1 - df))
    decreases Reach(r, dr) + Reach(f, df)
  {
    hide Aligned, Dist;
    MaskEndStep(r, f, dr, df);
    if Inner(r, f, dr, df) {
      MaskEndShape(r + dr, f + df, dr, df);
      var e := MaskEnd(r + dr, f + df, dr, df);
      ShapeExtend(r, f, dr, df, e.0, e.1);
    } else {
      RayStart(r, f, dr, df);
    }
  }

  lemma {:induction false} AttackEndShape(r: int, f: int, dr: int, df: int, block: bv64)
    requires Direction(dr, df)
    ensures var e := AttackEnd(r, f, dr, df, block);
      Aligned(r, f, dr, df, e.0, e.1) && (e == (r, f) || OnBoard(e.0 - dr, e.1 - df))
    decreases Reach(r, dr) + Reach(f, df)
  {
    hide Has, Aligned;
    if !OnBoard(r, f) {
      AttackEndOff(r, f, dr, df, block);
      RayStart(r, f, dr, df);
    } else {
      AttackEndStep(r, f, dr, df, block);
      if !Has(block, 8 * r + f) {
        AttackEndShape(r + dr, f + df, dr, df, block);
        var e := AttackEnd(r + dr, f + df, dr, df, block);
        ShapeExtend(r, f, dr, df, e.0, e.1);
      } else {
        RayStart(r + dr, f + df, dr, df);
        ShapeExtend(r, f, dr, df, r + dr, f + df);
      }
    }
  }

  /** The mask walk read forwards: it is empty from a square that is not inner. */
  lemma MaskRayStop(r: int, f: int, dr: int, df: int)
    requires Direction(dr, df) && !Inner(r, f, dr, df)
    ensures MaskRay(r, f, dr, df) == 0
  {
    RayStart(r, f, dr, df);
  }

  /** The mask walk read forwards: an inner square followed by the walk from the next square. */
  lemma MaskRayInner(r: int, f: int, dr: int, df: int)
    requires Direction(dr, df) && Inner(r, f, dr, df)
    ensures MaskRay(r, f, dr, df) == Bit(8 * r + f) | MaskRay(r + dr, f + df, dr, df)
  {
    hide Bit, Ray, MaskEnd, Aligned, Dist, Inner, OnBoard, Direction;
    MaskEndInner(r, f, dr, df);
    MaskEndShape(r + dr, f + df, dr, df);
    var e := MaskEnd(r + dr, f + df, dr, df);
    RayPrepend(r, f, dr, df, e.0, e.1);
  }

  lemma MaskEndInner(r: int, f: int, dr: int, df: int)
    requires Direction(dr, df) && Inner(r, f, dr, df)
    ensures MaskEnd(r, f, dr, df) == MaskEnd(r + dr, f + df, dr, df) && OnBoard(r, f)
  {}

  lemma AttackEndOpen(r: int, f: int, dr: int, df: int, block: bv64)
    requires Direction(dr, df) && OnBoard(r, f) && !Has(block, 8 * r + f)
    ensures AttackEnd(r, f, dr, df, block) == AttackEnd(r + dr, f + df, dr, df, block)
  {}

  lemma AttackEndBlocked(r: int, f: int, dr: int, df: int, block: bv64)
    requires Direction(dr, df) && OnBoard(r, f) && Has(block, 8 * r + f)
    ensures AttackEnd(r, f, dr, df, block) == (r + dr, f + df)
  {}

  /** The attack walk read forwards: a blocked square is the last one it contains. */
  lemma AttackRayBlocked(r: int, f: int, dr: int, df: int, block: bv64)
    requires Direction(dr, df) && OnBoard(r, f) && Has(block, 8 * r + f)
    ensures AttackRay(r, f, dr, df, block) == Bit(8 * r + f)
  {
    hide Bit, Ray, AttackEnd, Has;
    AttackEndBlocked(r, f, dr, df, block);
    PrependFirst(r, f, dr, df);
  }

  /** The attack walk read forwards: an empty square is followed by the rest of the walk. */
  lemma AttackRayOpen(r: int, f: int, dr: int, df: int, block: bv64)
    requires Direction(dr, df) && OnBoard(r, f) && !Has(block, 8 * r + f)
    ensures AttackRay(r, f, dr, df, block) == Bit(8 * r + f) | AttackRay(r + dr, f + df, dr, df, block)
  {
    hide Bit, Ray, AttackEnd, Has, Aligned, Dist, OnBoard, Direction;
    AttackEndOpen(r, f, dr, df, block);
    AttackEndShape(r + dr, f + df, dr, df, block);
    var e := AttackEnd(r + dr, f + df, dr, df, block);
    RayPrepend(r, f, dr, df, e.0, e.1);
  }

  // ---- Occupancy subsets ----

  function Pow2(k: nat): (p: nat)
    ensures p >= 1
  {
    if k == 0 then 1 else 2 * Pow2(k - 1)
  }

  /** Bit c of the binary number i (`i & (1 << c) > 0`). */
  predicate IndexBit(i: nat, c: nat)
  {
    if c == 0 then i % 2 == 1 else IndexBit(i / 2, c - 1)
  }

  /** The mask with its c lowest squares removed. */
  function Remaining(mask: bv64, c: nat): bv64
  {
    if c == 0 then mask else var p := Remaining(mask, c - 1); p & (p - 1)
  }

  /**
   * The subset of mask selected by the c low bits of index: bit k of index
   * selects the k-th lowest square of mask.
   */
  function Occupancy(index: nat, mask: bv64, c: nat): bv64
  {
    if c == 0 then 0
    else Occupancy(index, mask, c - 1) | (if IndexBit(index, c - 1) then Lowest(Remaining(mask, c - 1)) else 0)
  }

  lemma XorLowest(m: bv64)
    ensures m ^ Lowest(m) == m & (m - 1)
  {}

  lemma PopCountClear(p: bv64)
    requires p != 0
    ensures PopCount(p & (p - 1)) == PopCount(p) - 1 && PopCount(p) > 0
  {}

  lemma PopCountZero(p: bv64)
    ensures PopCount(p) == 0 <==> p == 0
  {}

  lemma RemainingStart(mask: bv64)
    ensures Remaining(mask, 0) == mask
  {}

  lemma OccupancyStart(index: nat, mask: bv64)
    ensures Occupancy(index, mask, 0) == 0
  {}

  lemma RemainingStep(mask: bv64, c: nat)
    ensures Remaining(mask, c + 1) == Remaining(mask, c) & (Remaining(mask, c) - 1)
  {}

  lemma {:induction false} RemainingPopCount(mask: bv64, c: nat)
    requires c <= PopCount(mask)
    ensures PopCount(Remaining(mask, c)) == PopCount(mask) - c
    ensures c < PopCount(mask) ==> Remaining(mask, c) != 0
  {
    hide Remaining, PopCount;
    if c == 0 {
      RemainingStart(mask);
    } else {
      RemainingPopCount(mask, c - 1);
      RemainingStep(mask, c - 1);
      PopCountClear(Remaining(mask, c - 1));
    }
    PopCountZero(Remaining(mask, c));
  }

  lemma OccupancyTaken(index: nat, mask: bv64, c: nat)
    requires IndexBit(index, c)
    ensures Occupancy(index, mask, c + 1) == Occupancy(index, mask, c) | Lowest(Remaining(mask, c))
  {}

  lemma OccupancySkipped(index: nat, mask: bv64, c: nat)
    requires !IndexBit(index, c)
    ensures Occupancy(index, mask, c + 1) == Occupancy(index, mask, c)
  {}

  lemma MaskNext(mask: bv64, c: nat, before: bv64, after: bv64, square: nat)
    requires before == Remaining(mask, c) && before != 0 && square == TrailingZeros(before)
    requires Has(before, square) ==> after == before ^ Bit(square)
    ensures after == Remaining(mask, c + 1)
    ensures Bit(square) == Lowest(Remaining(mask, c))
  {
    hide Bit, Lowest, TrailingZeros, Has, Remaining;
    TrailingZerosBit(before);
    XorLowest(before);
    RemainingStep(mask, c);
  }

  lemma OccupancyNext(index: nat, mask: bv64, c: nat, before: bv64, after: bv64, square: nat)
    requires square < 64 && before == Occupancy(index, mask, c) && Bit(square) == Lowest(Remaining(mask, c))
    requires IndexBit(index, c) ==> after == before | Bit(square)
    requires !IndexBit(index, c) ==> after == before
    ensures after == Occupancy(index, mask, c + 1)
  {
    hide Occupancy, Lowest, Remaining, IndexBit, Bit;
    if IndexBit(index, c) {
      OccupancyTaken(index, mask, c);
    } else {
      OccupancySkipped(index, mask, c);
    }
  }

  /** set_occupancy (magic.rs:291-308). */
  method SetOccupancy(index: nat, bitsInMask: nat, attackMask: bv64) returns (occupancy: bv64)
    requires bitsInMask <= PopCount(attackMask)
    ensures occupancy == Occupancy(index, attackMask, bitsInMask)
  {
    hide Bit, Lowest, TrailingZeros, Has, PopCount, Remaining, Occupancy, IndexBit;
    RemainingStart(attackMask);
    OccupancyStart(index, attackMask);
    occupancy := 0;
    var mask := attackMask;
    for count := 0 to bitsInMask
      invariant mask == Remaining(attackMask, count)
      invariant occupancy == Occupancy(index, attackMask, count)
    {
      RemainingPopCount(attackMask, count);
      var square := TrailingZeros(mask);
      TrailingZerosBit(mask);
      var rest := mask;
      if Has(mask, square) {
        mask := mask ^ Bit(square);
      }
      MaskNext(attackMask, count, rest, mask, square);
      var before := occupancy;
      if IndexBit(index, count) {
        occupancy := occupancy | Bit(square);
      }
      OccupancyNext(index, attackMask, count, before, occupancy, square);
    }
  }

  // ---- What the occupancy subsets are ----

  lemma RemainingShrinks(mask: bv64, c: nat)
    ensures Within(Remaining(mask, c + 1), Remaining(mask, c))
    ensures Within(Lowest(Remaining(mask, c)), Remaining(mask, c))
    ensures Disjoint(Lowest(Remaining(mask, c)), Remaining(mask, c + 1))
  {
    hide Remaining, Lowest, Within, Disjoint;
    RemainingStep(mask, c);
    LowestSplit(Remaining(mask, c));
  }

  /** Clearing squares one at a time only ever removes squares. */
  lemma {:induction false} RemainingWithin(mask: bv64, c1: nat, c2: nat)
    requires c1 <= c2
    ensures Within(Remaining(mask, c2), Remaining(mask, c1))
    decreases c2
  {
    hide Remaining, Within;
    if c2 == c1 {
      EmptyWithin(Remaining(mask, c1));
    } else {
      RemainingWithin(mask, c1, c2 - 1);
      RemainingShrinks(mask, c2 - 1);
      WithinTrans(Remaining(mask, c2), Remaining(mask, c2 - 1), Remaining(mask, c1));
    }
  }

  lemma TakenWithin(index: nat, mask: bv64, c: nat, x: bv64)
    requires IndexBit(index, c)
    requires Within(Occupancy(index, mask, c), x) && Within(Lowest(Remaining(mask, c)), x)
    ensures Within(Occupancy(index, mask, c + 1), x)
  {
    hide Occupancy, Remaining, Lowest, IndexBit, Within;
    OccupancyTaken(index, mask, c);
    UnionWithin(Occupancy(index, mask, c), Lowest(Remaining(mask, c)), x);
  }

  lemma TakenDisjoint(index: nat, mask: bv64, c: nat, x: bv64)
    requires IndexBit(index, c)
    requires Disjoint(Occupancy(index, mask, c), x) && Disjoint(Lowest(Remaining(mask, c)), x)
    ensures Disjoint(Occupancy(index, mask, c + 1), x)
  {
    hide Occupancy, Remaining, Lowest, IndexBit, Disjoint;
    OccupancyTaken(index, mask, c);
    UnionDisjoint(Occupancy(index, mask, c), Lowest(Remaining(mask, c)), x);
  }

  /**
   * The occupancy is a subset of the mask, disjoint from the squares not yet
   * visited, which are themselves in the mask.
   */
  lemma {:induction false} OccupancyWithin(index: nat, mask: bv64, c: nat)
    ensures Within(Occupancy(index, mask, c), mask)
    ensures Disjoint(Occupancy(index, mask, c), Remaining(mask, c))
    ensures Within(Remaining(mask, c), mask)
  {
    hide Occupancy, Remaining, Lowest, IndexBit, Within, Disjoint;
    if c == 0 {
      OccupancyStart(index, mask);
      RemainingStart(mask);
      EmptyWithin(mask);
    } else {
      var o, p, p' := Occupancy(index, mask, c - 1), Remaining(mask, c - 1), Remaining(mask, c);
      OccupancyWithin(index, mask, c - 1);
      RemainingShrinks(mask, c - 1);
      WithinTrans(p', p, mask);
      DisjointWithin(o, p, p');
      if IndexBit(index, c - 1) {
        WithinTrans(Lowest(p), p, mask);
        TakenWithin(index, mask, c - 1, mask);
        TakenDisjoint(index, mask, c - 1, p');
      } else {
        OccupancySkipped(index, mask, c - 1);
      }
    }
  }

  lemma TakenGrows(index: nat, mask: bv64, c: nat)
    requires IndexBit(index, c)
    ensures Within(Occupancy(index, mask, c), Occupancy(index, mask, c + 1))
    ensures Within(Lowest(Remaining(mask, c)), Occupancy(index, mask, c + 1))
  {
    hide Occupancy, Remaining, Lowest, IndexBit, Within;
    OccupancyTaken(index, mask, c);
    UnionSides(Occupancy(index, mask, c), Lowest(Remaining(mask, c)));
  }

  /** Bit c of index decides whether the c-th lowest square of the mask is in the occupancy. */
  lemma {:induction false} OccupancySelects(index: nat, mask: bv64, k: nat, c: nat)
    requires c < k
    ensures IndexBit(index, c) ==> Within(Lowest(Remaining(mask, c)), Occupancy(index, mask, k))
    ensures !IndexBit(index, c) ==> Disjoint(Lowest(Remaining(mask, c)), Occupancy(index, mask, k))
    decreases k
  {
    hide Occupancy, Remaining, Lowest, IndexBit, Within, Disjoint;
    var low := Lowest(Remaining(mask, c));
    var o, o' := Occupancy(index, mask, k - 1), Occupancy(index, mask, k);
    var added := Lowest(Remaining(mask, k - 1));
    if k == c + 1 {
      if IndexBit(index, c) {
        TakenGrows(index, mask, c);
      } else {
        OccupancySkipped(index, mask, c);
        OccupancyWithin(index, mask, c);
        RemainingShrinks(mask, c);
        DisjointWithin(o, Remaining(mask, c), low);
      }
    } else {
      OccupancySelects(index, mask, k - 1, c);
      if IndexBit(index, c) {
        if IndexBit(index, k - 1) {
          TakenGrows(index, mask, k - 1);
          WithinTrans(low, o, o');
        } else {
          OccupancySkipped(index, mask, k - 1);
        }
      } else {
        if IndexBit(index, k - 1) {
          RemainingShrinks(mask, c);
          RemainingShrinks(mask, k - 1);
          RemainingWithin(mask, c + 1, k - 1);
          WithinTrans(added, Remaining(mask, k - 1), Remaining(mask, c + 1));
          DisjointWithin(low, Remaining(mask, c + 1), added);
          DisjointSym(low, o);
          TakenDisjoint(index, mask, k - 1, low);
          DisjointSym(o', low);
        } else {
          OccupancySkipped(index, mask, k - 1);
        }
      }
    }
  }

  /** Two numbers below 2^k with the same k low bits are equal. */
  lemma {:induction false} IndexBitsDecide(i: nat, j: nat, k: nat)
    requires i < Pow2(k) && j < Pow2(k)
    requires forall c: nat :: c < k ==> (IndexBit(i, c) <==> IndexBit(j, c))
    ensures i == j
  {
    if k > 0 {
      assert IndexBit(i, 0) <==> IndexBit(j, 0);
      forall c: nat | c < k - 1
        ensures IndexBit(i / 2, c) <==> IndexBit(j / 2, c)
      {
        assert IndexBit(i, c + 1) <==> IndexBit(j, c + 1);
      }
      IndexBitsDecide(i / 2, j / 2, k - 1);
    }
  }

  lemma SelectionAgrees(a: bv64, o: bv64, p: bool, q: bool)
    requires a != 0
    requires p ==> Within(a, o)
    requires !p ==> Disjoint(a, o)
    requires q ==> Within(a, o)
    requires !q ==> Disjoint(a, o)
    ensures p == q
  {
    if p != q {
      WithinNotDisjoint(a, o);
    }
  }

  /** Different indices below 2^k select different subsets of a mask with at least k squares. */
  lemma OccupancyInjective(i: nat, j: nat, mask: bv64, k: nat)
    requires k <= PopCount(mask) && i < Pow2(k) && j < Pow2(k)
    requires Occupancy(i, mask, k) == Occupancy(j, mask, k)
    ensures i == j
  {
    hide Occupancy, Remaining, Lowest, IndexBit, Within, Disjoint, PopCount;
    forall c: nat | c < k
      ensures IndexBit(i, c) <==> IndexBit(j, c)
    {
      OccupancySelects(i, mask, k, c);
      OccupancySelects(j, mask, k, c);
      RemainingPopCount(mask, c);
      LowestNonEmpty(Remaining(mask, c));
      SelectionAgrees(Lowest(Remaining(mask, c)), Occupancy(i, mask, k), IndexBit(i, c), IndexBit(j, c));
    }
    IndexBitsDecide(i, j, k);
  }

  // ---- Magic indices ----

  /** Relevant-bit counts: the number of squares in a rook or bishop mask. */
  type RookBits = b: bv64 | 1 <= b <= 12 witness 12
  type BishopBits = b: bv64 | 1 <= b <= 9 witness 9

  /** Number of relevant occupancy bits per square (magic.rs:312). */
  const ROOK_RELEVANT_BITS: seq<RookBits> := Ranks(
      [12, 11, 11, 11, 11, 11, 11, 12],
      [11, 10, 10, 10, 10, 10, 10, 11],
      [11, 10, 10, 10, 10, 10, 10, 11],
      [11, 10, 10, 10, 10, 10, 10, 11],
      [11, 10, 10, 10, 10, 10, 10, 11],
      [11, 10, 10, 10, 10, 10, 10, 11],
      [11, 10, 10, 10, 10, 10, 10, 11],
      [12, 11, 11, 11, 11, 11, 11, 12])

  /** Number of relevant occupancy bits per square for the bishop (magic.rs:325). */
  const BISHOP_RELEVANT_BITS: seq<BishopBits> := Ranks(
      [6, 5, 5, 5, 5, 5, 5, 6],
      [5, 5, 5, 5, 5, 5, 5, 5],
      [5, 5, 7, 7, 7, 7, 5, 5],
      [5, 5, 7, 9, 9, 7, 5, 5],
      [5, 5, 7, 9, 9, 7, 5, 5],
      [5, 5, 7, 7, 7, 7, 5, 5],
      [5, 5, 5, 5, 5, 5, 5, 5],
      [6, 5, 5, 5, 5, 5, 5, 6])

  /** Magic multipliers (magic.rs:336). */
  const ROOK_MAGIC_NUMBERS: seq<bv64> := Ranks(
      [0x8a80104000800020, 0x140002000100040, 0x2801880a0017001, 0x100081001000420, 0x200020010080420, 0x3001c0002010008, 0x8480008002000100, 0x2080088004402900],
      [0x800098204000, 0x2024401000200040, 0x100802000801000, 0x120800800801000, 0x208808088000400, 0x2802200800400, 0x2200800100020080, 0x801000060821100],
      [0x80044006422000, 0x100808020004000, 0x12108a0010204200, 0x140848010000802, 0x481828014002800, 0x8094004002004100, 0x4010040010010802, 0x20008806104],
      [0x100400080208000, 0x2040002120081000, 0x21200680100081, 0x20100080080080, 0x2000a00200410, 0x20080800400, 0x80088400100102, 0x80004600042881],
      [0x4040008040800020, 0x440003000200801, 0x4200011004500, 0x188020010100100, 0x14800401802800, 0x2080040080800200, 0x124080204001001, 0x200046502000484],
      [0x480400080088020, 0x1000422010034000, 0x30200100110040, 0x100021010009, 0x2002080100110004, 0x202008004008002, 0x20020004010100, 0x2048440040820001],
      [0x101002200408200, 0x40802000401080, 0x4008142004410100, 0x2060820c0120200, 0x1001004080100, 0x20c020080040080, 0x2935610830022400, 0x44440041009200],
      [0x280001040802101, 0x2100190040002085, 0x80c0084100102001, 0x4024081001000421, 0x20030a0244872, 0x12001008414402, 0x2006104900a0804, 0x1004081002402])

  /** magic.rs:403 */
  const BISHOP_MAGIC_NUMBERS: seq<bv64> := Ranks(
      [0x40040844404084, 0x2004208a004208, 0x10190041080202, 0x108060845042010, 0x581104180800210, 0x2112080446200010, 0x1080820820060210, 0x3c0808410220200],
      [0x4050404440404, 0x21001420088, 0x24d0080801082102, 0x1020a0a020400, 0x40308200402, 0x4011002100800, 0x401484104104005, 0x801010402020200],
      [0x400210c3880100, 0x404022024108200, 0x810018200204102, 0x4002801a02003, 0x85040820080400, 0x810102c808880400, 0xe900410884800, 0x8002020480840102],
      [0x220200865090201, 0x2010100a02021202, 0x152048408022401, 0x20080002081110, 0x4001001021004000, 0x800040400a011002, 0xe4004081011002, 0x1c004001012080],
      [0x8004200962a00220, 0x8422100208500202, 0x2000402200300c08, 0x8646020080080080, 0x80020a0200100808, 0x2010004880111000, 0x623000a080011400, 0x42008c0340209202],
      [0x209188240001000, 0x400408a884001800, 0x110400a6080400, 0x1840060a44020800, 0x90080104000041, 0x201011000808101, 0x1a2208080504f080, 0x8012020600211212],
      [0x500861011240000, 0x180806108200800, 0x4000020e01040044, 0x300000261044000a, 0x802241102020002, 0x20906061210001, 0x5a84841004010310, 0x4010801011c04],
      [0xa010109502200, 0x4a02012000, 0x500201010098b028, 0x8040002811040900, 0x28000010020204, 0x6000020202d0240, 0x8918844842082200, 0x4010011029020020])

  /**
   * `occupancy.wrapping_mul(magic) >> (64 - bits)` (magic.rs:13-14, 22-23, 47-48, 59-60):
   * the product wraps modulo 2^64 and the top `bits` bits of it are the index.
   */
  function MagicIndex(occupancy: bv64, magic: bv64, bits: bv64): (index: nat)
    requires 1 <= bits <= 12
    ensures index < 4096
    ensures bits <= 9 ==> index < 512
  {
    ((occupancy * magic) >> (64 - bits)) as int
  }

  // ---- The attack tables ----

  datatype Slider = Bishop | Rook

  /** Entries per table row: `[u64; 512]` for bishops, `[u64; 4096]` for rooks. */
  function RowLength(p: Slider): nat
  {
    if p == Rook then 4096 else 512
  }

  function SliderMask(p: Slider, square: nat): bv64
    requires square < 64
  {
    if p == Rook then RookMask(square) else BishopMask(square)
  }

  function SliderAttacks(p: Slider, square: nat, block: bv64): bv64
    requires square < 64
  {
    if p == Rook then RookAttacks(square, block) else BishopAttacks(square, block)
  }

  /** The magic multiplier of a square. */
  function MagicNumber(p: Slider, square: nat): bv64
    requires square < 64
  {
    if p == Rook then ROOK_MAGIC_NUMBERS[square] else BISHOP_MAGIC_NUMBERS[square]
  }

  /** The relevant-bit count of a square. */
  function RelevantBits(p: Slider, square: nat): (bits: bv64)
    requires square < 64
    ensures 1 <= bits <= 12 && (p == Bishop ==> bits <= 9)
  {
    if p == Rook then ROOK_RELEVANT_BITS[square] else BISHOP_RELEVANT_BITS[square]
  }

  /** The table index of an occupancy; it fits the row (magic.rs:6-7). */
  function SliderIndex(p: Slider, square: nat, occupancy: bv64): (index: nat)
    requires square < 64
    ensures index < RowLength(p)
  {
    MagicIndex(occupancy, MagicNumber(p, square), RelevantBits(p, square))
  }

  /** The k-th occupancy subset of the square's mask, as init enumerates them. */
  function Subset(p: Slider, square: nat, k: nat): bv64
    requires square < 64
  {
    var mask := SliderMask(p, square);
    Occupancy(k, mask, PopCount(mask))
  }

  /** A table row once the first n subsets have been stored at their magic indices. */
  function Row(p: Slider, square: nat, n: nat): (row: seq<bv64>)
    requires square < 64
    ensures |row| == RowLength(p)
  {
    if n == 0 then seq(RowLength(p), _ => 0)
    else
      var occupancy := Subset(p, square, n - 1);
      Row(p, square, n - 1)[SliderIndex(p, square, occupancy) := SliderAttacks(p, square, occupancy)]
  }

  /** The finished row: all 2^n subsets of an n-square mask stored. */
  function Table(p: Slider, square: nat): (row: seq<bv64>)
    requires square < 64
    ensures |row| == RowLength(p)
  {
    Row(p, square, Pow2(PopCount(SliderMask(p, square))))
  }

  /**
   * The entry at the k-th subset's magic index holds the attack set of that subset,
   * unless a later subset was stored at the same index.
   */
  lemma {:induction false} RowStored(p: Slider, square: nat, n: nat, k: nat)
    requires square < 64 && k < n
    requires forall j: nat :: k < j < n ==>
      SliderIndex(p, square, Subset(p, square, j)) != SliderIndex(p, square, Subset(p, square, k))
    ensures Row(p, square, n)[SliderIndex(p, square, Subset(p, square, k))] == SliderAttacks(p, square, Subset(p, square, k))
    decreases n
  {
    hide SliderAttacks, SliderIndex, Subset;
    if n > k + 1 {
      RowStored(p, square, n - 1, k);
    }
  }

  /** An entry that no subset is stored at stays empty. */
  lemma {:induction false} RowUnwritten(p: Slider, square: nat, n: nat, i: nat)
    requires square < 64 && i < RowLength(p)
    requires forall j: nat :: j < n ==> SliderIndex(p, square, Subset(p, square, j)) != i
    ensures Row(p, square, n)[i] == 0
    decreases n
  {
    hide SliderAttacks, SliderIndex, Subset;
    if n > 0 {
      RowUnwritten(p, square, n - 1, i);
    }
  }

  /**
   * One inner loop of MagicBitboard::init (magic.rs:40-51 for bishops, 53-62 for rooks):
   * every subset of the square's mask is stored at its magic index.
   */
  method FillRow(p: Slider, square: nat, mask: bv64, table: array2<bv64>)
    requires square < 64 && mask == SliderMask(p, square)
    requires table.Length0 == 64 && table.Length1 == RowLength(p)
    requires forall i :: 0 <= i < RowLength(p) ==> table[square, i] == 0
    modifies table
    ensures forall i :: 0 <= i < RowLength(p) ==> table[square, i] == Table(p, square)[i]
    ensures forall s, i :: 0 <= s < 64 && s != square && 0 <= i < RowLength(p) ==> table[s, i] == old(table[s, i])
  {
    hide SliderMask, SliderAttacks, SliderIndex, Occupancy, PopCount, RookAttacks, BishopAttacks, Row, MagicIndex,
      MagicNumber, RelevantBits;
    RowZero(p, square);
    var bitCount := PopCount(mask);
    var occupancyVariations := Pow2(bitCount);
    for count := 0 to occupancyVariations
      invariant forall i :: 0 <= i < RowLength(p) ==> table[square, i] == Row(p, square, count)[i]
      invariant forall s, i :: 0 <= s < 64 && s != square && 0 <= i < RowLength(p) ==> table[s, i] == old(table[s, i])
    {
      var occupancy := SetOccupancy(count, bitCount, mask);
      var magicIndex := MagicIndex(occupancy, MagicNumber(p, square), RelevantBits(p, square));
      var attacks;
      if p == Bishop {
        attacks := BishopAttacksOnTheFly(square, occupancy);
      } else {
        attacks := RookAttacksOnTheFly(square, occupancy);
      }
      SliderStep(p, square, occupancy, magicIndex, attacks);
      RowStep(p, square, count);
      table[square, magicIndex] := attacks;
    }
  }

  lemma RowZero(p: Slider, square: nat)
    requires square < 64
    ensures forall i :: 0 <= i < RowLength(p) ==> Row(p, square, 0)[i] == 0
  {}

  lemma RowStep(p: Slider, square: nat, n: nat)
    requires square < 64
    ensures Row(p, square, n + 1) ==
      Row(p, square, n)[SliderIndex(p, square, Subset(p, square, n)) := SliderAttacks(p, square, Subset(p, square, n))]
  {}

  lemma SliderStep(p: Slider, square: nat, occupancy: bv64, index: nat, attacks: bv64)
    requires square < 64
    requires index == MagicIndex(occupancy, MagicNumber(p, square), RelevantBits(p, square))
    requires p == Bishop ==> attacks == BishopAttacks(square, occupancy)
    requires p == Rook ==> attacks == RookAttacks(square, occupancy)
    ensures index == SliderIndex(p, square, occupancy) && attacks == SliderAttacks(p, square, occupancy)
  {
    hide RookAttacks, BishopAttacks, MagicIndex;
  }

  /** One pass of the outer loop of MagicBitboard::init (magic.rs:33-63). */
  method FillSquare(square: nat, bMasks: array<bv64>, rMasks: array<bv64>, bAttacks: array2<bv64>, rAttacks: array2<bv64>)
    requires square < 64 && bMasks.Length == 64 && rMasks.Length == 64 && bMasks != rMasks
    requires bAttacks.Length0 == 64 && bAttacks.Length1 == 512 && rAttacks.Length0 == 64 && rAttacks.Length1 == 4096
    requires forall i :: 0 <= i < 512 ==> bAttacks[square, i] == 0
    requires forall i :: 0 <= i < 4096 ==> rAttacks[square, i] == 0
    modifies bMasks, rMasks, bAttacks, rAttacks
    ensures bMasks[..] == old(bMasks[..])[square := BishopMask(square)]
    ensures rMasks[..] == old(rMasks[..])[square := RookMask(square)]
    ensures forall i :: 0 <= i < 512 ==> bAttacks[square, i] == Table(Bishop, square)[i]
    ensures forall i :: 0 <= i < 4096 ==> rAttacks[square, i] == Table(Rook, square)[i]
    ensures forall s, i :: 0 <= s < 64 && s != square && 0 <= i < 512 ==> bAttacks[s, i] == old(bAttacks[s, i])
    ensures forall s, i :: 0 <= s < 64 && s != square && 0 <= i < 4096 ==> rAttacks[s, i] == old(rAttacks[s, i])
  {
    hide BishopMask, RookMask, Table;
    var bishopMask := MaskBishopAttacks(square);
    var rookMask := MaskRookAttacks(square);
    bMasks[square] := bishopMask;
    rMasks[square] := rookMask;
    FillRow(Bishop, square, bishopMask, bAttacks);
    FillRow(Rook, square, rookMask, rAttacks);
  }

  /** The precomputed slider tables (magic.rs:1-8). */
  class MagicBitboard {
    const bishopMasks: array<bv64>
    const rookMasks: array<bv64>
    const bishopAttacks: array2<bv64>
    const rookAttacks: array2<bv64>

    /** 64 masks of each kind and 64 rows of 512 (bishop) and 4096 (rook) entries. */
    predicate Valid()
    {
      bishopMasks.Length == 64 && rookMasks.Length == 64 &&
      bishopAttacks.Length0 == 64 && bishopAttacks.Length1 == 512 &&
      rookAttacks.Length0 == 64 && rookAttacks.Length1 == 4096
    }

    /** The four tables, which every lookup reads. */
    function Repr(): set<object>
    {
      {bishopMasks, rookMasks, bishopAttacks, rookAttacks}
    }

    /** The state init leaves: the masks, and every row holding its finished table. */
    predicate Initialized()
      reads bishopMasks, rookMasks, bishopAttacks, rookAttacks
    {
      Valid() &&
      (forall s :: 0 <= s < 64 ==> bishopMasks[s] == BishopMask(s) && rookMasks[s] == RookMask(s)) &&
      (forall s, i :: 0 <= s < 64 && 0 <= i < 512 ==> bishopAttacks[s, i] == Table(Bishop, s)[i]) &&
      (forall s, i :: 0 <= s < 64 && 0 <= i < 4096 ==> rookAttacks[s, i] == Table(Rook, s)[i])
    }

    /** MagicBitboard::init (magic.rs:28-71). */
    constructor Init()
      ensures Initialized()
      ensures fresh(bishopMasks) && fresh(rookMasks) && fresh(bishopAttacks) && fresh(rookAttacks)
    {
      hide BishopMask, RookMask, Table;
      var bMasks := new bv64[64](_ => 0);
      var rMasks := new bv64[64](_ => 0);
      var bAttacks := new bv64[64, 512]((_, _) => 0);
      var rAttacks := new bv64[64, 4096]((_, _) => 0);
      for square := 0 to 64
        invariant forall s :: 0 <= s < square ==> bMasks[s] == BishopMask(s)
        invariant forall s :: 0 <= s < square ==> rMasks[s] == RookMask(s)
        invariant forall s, i :: 0 <= s < square && 0 <= i < 512 ==> bAttacks[s, i] == Table(Bishop, s)[i]
        invariant forall s, i :: square <= s < 64 && 0 <= i < 512 ==> bAttacks[s, i] == 0
        invariant forall s, i :: 0 <= s < square && 0 <= i < 4096 ==> rAttacks[s, i] == Table(Rook, s)[i]
        invariant forall s, i :: square <= s < 64 && 0 <= i < 4096 ==> rAttacks[s, i] == 0
      {
        FillSquare(square, bMasks, rMasks, bAttacks, rAttacks);
      }
      bishopMasks, rookMasks := bMasks, rMasks;
      bishopAttacks, rookAttacks := bAttacks, rAttacks;
    }

    /** get_bishop_attacks (magic.rs:10-17). */
    function GetBishopAttacks(square: nat, occupancy: bv64): (attacks: bv64)
      requires Valid() && square < 64
      reads bishopMasks, bishopAttacks
    {
      bishopAttacks[square, SliderIndex(Bishop, square, occupancy & bishopMasks[square])]
    }

    /** get_rook_attacks (magic.rs:19-26). */
    function GetRookAttacks(square: nat, occupancy: bv64): (attacks: bv64)
      requires Valid() && square < 64
      reads rookMasks, rookAttacks
    {
      rookAttacks[square, SliderIndex(Rook, square, occupancy & rookMasks[square])]
    }

    /**
     * After init, a bishop lookup returns the on-the-fly attack set of the occupancy's
     * part inside the mask, when that part is the k-th enumerated subset and no later
     * subset shares its magic index.
     */
    lemma BishopLookup(square: nat, occupancy: bv64, k: nat)
      requires Initialized() && square < 64
      requires k < Pow2(PopCount(BishopMask(square)))
      requires occupancy & BishopMask(square) == Subset(Bishop, square, k)
      requires forall j: nat :: k < j < Pow2(PopCount(BishopMask(square))) ==>
        SliderIndex(Bishop, square, Subset(Bishop, square, j)) != SliderIndex(Bishop, square, Subset(Bishop, square, k))
      ensures GetBishopAttacks(square, occupancy) == BishopAttacks(square, Subset(Bishop, square, k))
    {
      hide Subset, SliderIndex, MagicIndex, Row, PopCount, Initialized, GetBishopAttacks, BishopMask, BishopAttacks;
      RowStored(Bishop, square, Pow2(PopCount(BishopMask(square))), k);
      BishopEntry(square, occupancy);
    }

    /** The same for a rook lookup. */
    lemma RookLookup(square: nat, occupancy: bv64, k: nat)
      requires Initialized() && square < 64
      requires k < Pow2(PopCount(RookMask(square)))
      requires occupancy & RookMask(square) == Subset(Rook, square, k)
      requires forall j: nat :: k < j < Pow2(PopCount(RookMask(square))) ==>
        SliderIndex(Rook, square, Subset(Rook, square, j)) != SliderIndex(Rook, square, Subset(Rook, square, k))
      ensures GetRookAttacks(square, occupancy) == RookAttacks(square, Subset(Rook, square, k))
    {
      hide Subset, SliderIndex, MagicIndex, Row, PopCount, Initialized, GetRookAttacks, RookMask, RookAttacks;
      RowStored(Rook, square, Pow2(PopCount(RookMask(square))), k);
      RookEntry(square, occupancy);
    }

    /** A bishop lookup reads the finished table at the magic index of the masked occupancy. */
    lemma BishopEntry(square: nat, occupancy: bv64)
      requires Initialized() && square < 64
      ensures GetBishopAttacks(square, occupancy) == Table(Bishop, square)[SliderIndex(Bishop, square, occupancy & BishopMask(square))]
    {
      hide SliderIndex, Table, BishopMask;
    }

    /** A rook lookup reads the finished table at the magic index of the masked occupancy. */
    lemma RookEntry(square: nat, occupancy: bv64)
      requires Initialized() && square < 64
      ensures GetRookAttacks(square, occupancy) == Table(Rook, square)[SliderIndex(Rook, square, occupancy & RookMask(square))]
    {
      hide SliderIndex, Table, RookMask;
    }
  }

  // ---- The MAGIC global ----

  /**
   * A lookup in the `MAGIC` global (generator.rs:6-8), the `MagicBitboard` that init
   * builds: the square's finished table at the magic index of the masked occupancy.
   */
  function MagicAttacks(p: Slider, square: nat, occupancy: bv64): bv64
    requires square < 64
  {
    Table(p, square)[SliderIndex(p, square, occupancy & SliderMask(p, square))]
  }

  /** Every bishop lookup in an initialised `MagicBitboard` is the `MAGIC` lookup. */
  lemma InitializedBishopLookup(magic: MagicBitboard, square: nat, occupancy: bv64)
    requires magic.Initialized() && square < 64
    ensures magic.GetBishopAttacks(square, occupancy) == MagicAttacks(Bishop, square, occupancy)
  {
    hide Table, SliderIndex, BishopMask, RookMask, magic.Initialized, magic.GetBishopAttacks;
    magic.BishopEntry(square, occupancy);
  }

  /** Every rook lookup in an initialised `MagicBitboard` is the `MAGIC` lookup. */
  lemma InitializedRookLookup(magic: MagicBitboard, square: nat, occupancy: bv64)
    requires magic.Initialized() && square < 64
    ensures magic.GetRookAttacks(square, occupancy) == MagicAttacks(Rook, square, occupancy)
  {
    hide Table, SliderIndex, BishopMask, RookMask, magic.Initialized, magic.GetRookAttacks;
    magic.RookEntry(square, occupancy);
  }

  // ---- King and knight lookups ----

  /** Knight jump targets per square (magic.rs:472-482). */
  const KNIGHTS_LOOKUP: seq<bv64> := Ranks(
      [132096, 329728, 659712, 1319424, 2638848, 5277696, 10489856, 4202496],
      [33816580, 84410376, 168886289, 337772578, 675545156, 1351090312, 2685403152, 1075839008],
      [8657044482, 21609056261, 43234889994, 86469779988, 172939559976, 345879119952, 687463207072, 275414786112],
      [2216203387392, 5531918402816, 11068131838464, 22136263676928, 44272527353856, 88545054707712, 175990581010432, 70506185244672],
      [567348067172352, 1416171111120896, 2833441750646784, 5666883501293568, 11333767002587136, 22667534005174272, 45053588738670592, 18049583422636032],
      [145241105196122112, 362539804446949376, 725361088165576704, 1450722176331153408, 2901444352662306816, 5802888705324613632, 11533718717099671552, 4620693356194824192],
      [288234782788157440, 576469569871282176, 1224997833292120064, 2449995666584240128, 4899991333168480256, 9799982666336960512, 1152939783987658752, 2305878468463689728],
      [1128098930098176, 2257297371824128, 4796069720358912, 9592139440717824, 19184278881435648, 38368557762871296, 4679521487814656, 9077567998918656])

  /** King step targets per square (magic.rs:486-496). */
  const KING_LOOKUP: seq<bv64> := Ranks(
      [770, 1797, 3594, 7188, 14376, 28752, 57504, 49216],
      [197123, 460039, 920078, 1840156, 3680312, 7360624, 14721248, 12599488],
      [50463488, 117769984, 235539968, 471079936, 942159872, 1884319744, 3768639488, 3225468928],
      [12918652928, 30149115904, 60298231808, 120596463616, 241192927232, 482385854464, 964771708928, 825720045568],
      [3307175149568, 7718173671424, 15436347342848, 30872694685696, 61745389371392, 123490778742784, 246981557485568, 211384331665408],
      [846636838289408, 1975852459884544, 3951704919769088, 7903409839538176, 15806819679076352, 31613639358152704, 63227278716305408, 54114388906344448],
      [216739030602088448, 505818229730443264, 1011636459460886528, 2023272918921773056, 4046545837843546112, 8093091675687092224, 16186183351374184448, 13853283560024178688],
      [144959613005987840, 362258295026614272, 724516590053228544, 1449033180106457088, 2898066360212914176, 5796132720425828352, 11592265440851656704, 4665729213955833856])

  /** The two pieces whose moves come from a fixed table. */
  datatype Leaper = King | Knight

  /**
   * A board square from a rank and a file; nothing when either is off the board.
   * Ranks and files are bit-vectors, so "one below rank 0" wraps around and is off the board.
   */
  function SquareAt(r: bv64, f: bv64): (s: bv64)
    ensures s == 0 || IsSingle(s)
  {
    if r < 8 && f < 8 then (1 as bv64) << (8 * r + f) else 0
  }

  /** The squares adjacent to square `k`: rank and file each change by at most one. */
  function KingSteps(k: bv64): bv64
    requires k < 64
  {
    var r, f := k / 8, k % 8;
    SquareAt(r + 1, f - 1) | SquareAt(r + 1, f) | SquareAt(r + 1, f + 1) | SquareAt(r, f - 1) |
    SquareAt(r, f + 1) | SquareAt(r - 1, f - 1) | SquareAt(r - 1, f) | SquareAt(r - 1, f + 1)
  }

  /** The squares a knight jumps to from square `k`: two ranks and one file, or one rank and two files. */
  function KnightSteps(k: bv64): bv64
    requires k < 64
  {
    var r, f := k / 8, k % 8;
    SquareAt(r + 2, f - 1) | SquareAt(r + 2, f + 1) | SquareAt(r + 1, f - 2) | SquareAt(r + 1, f + 2) |
    SquareAt(r - 1, f - 2) | SquareAt(r - 1, f + 2) | SquareAt(r - 2, f - 1) | SquareAt(r - 2, f + 1)
  }

  /**
   * The same king steps computed for a whole bitboard at once: shifts by 8 move a rank,
   * shifts by 1, 7 and 9 also move a file, and the masks drop the squares that wrapped
   * around from the h-file to the a-file (0xfefe...) or back (0x7f7f...).
   */
  function KingShift(b: bv64): bv64
  {
    (b << 8) | (b >> 8) |
    (((b << 1) | (b << 9) | (b >> 7)) & 0xfefe_fefe_fefe_fefe) |
    (((b >> 1) | (b >> 9) | (b << 7)) & 0x7f7f_7f7f_7f7f_7f7f)
  }

  /** The knight jumps for a whole bitboard; 0xfcfc... and 0x3f3f... drop the two edge files. */
  function KnightShift(b: bv64): bv64
  {
    (((b << 17) | (b >> 15)) & 0xfefe_fefe_fefe_fefe) |
    (((b << 15) | (b >> 17)) & 0x7f7f_7f7f_7f7f_7f7f) |
    (((b << 10) | (b >> 6)) & 0xfcfc_fcfc_fcfc_fcfc) |
    (((b << 6) | (b >> 10)) & 0x3f3f_3f3f_3f3f_3f3f)
  }

  /** The king shift construction for square `i`. */
  function KingAt(i: nat): bv64
  {
    if i < 64 then KingShift(Bit(i)) else 0
  }


  lemma KingList0()
    ensures Rank(KING_LOOKUP, 0) == [KingAt(0), KingAt(1), KingAt(2), KingAt(3),
      KingAt(4), KingAt(5), KingAt(6), KingAt(7)]
  {}

  lemma KingRank0()
    ensures Rank(KING_LOOKUP, 0) == Eight(KingAt, 0)
  {
    hide KingAt;
    KingList0();
  }

  lemma KingList1()
    ensures Rank(KING_LOOKUP, 1) == [KingAt(8), KingAt(9), KingAt(10), KingAt(11),
      KingAt(12), KingAt(13), KingAt(14), KingAt(15)]
  {}

  lemma KingRank1()
    ensures Rank(KING_LOOKUP, 1) == Eight(KingAt, 8)
  {
    hide KingAt;
    KingList1();
  }

  lemma KingList2()
    ensures Rank(KING_LOOKUP, 2) == [KingAt(16), KingAt(17), KingAt(18), KingAt(19),
      KingAt(20), KingAt(21), KingAt(22), KingAt(23)]
  {}

  lemma KingRank2()
    ensures Rank(KING_LOOKUP, 2) == Eight(KingAt, 16)
  {
    hide KingAt;
    KingList2();
  }

  lemma KingList3()
    ensures Rank(KING_LOOKUP, 3) == [KingAt(24), KingAt(25), KingAt(26), KingAt(27),
      KingAt(28), KingAt(29), KingAt(30), KingAt(31)]
  {}

  lemma KingRank3()
    ensures Rank(KING_LOOKUP, 3) == Eight(KingAt, 24)
  {
    hide KingAt;
    KingList3();
  }

  lemma KingList4()
    ensures Rank(KING_LOOKUP, 4) == [KingAt(32), KingAt(33), KingAt(34), KingAt(35),
      KingAt(36), KingAt(37), KingAt(38), KingAt(39)]
  {}

  lemma KingRank4()
    ensures Rank(KING_LOOKUP, 4) == Eight(KingAt, 32)
  {
    hide KingAt;
    KingList4();
  }

  lemma KingList5()
    ensures Rank(KING_LOOKUP, 5) == [KingAt(40), KingAt(41), KingAt(42), KingAt(43),
      KingAt(44), KingAt(45), KingAt(46), KingAt(47)]
  {}

  lemma KingRank5()
    ensures Rank(KING_LOOKUP, 5) == Eight(KingAt, 40)
  {
    hide KingAt;
    KingList5();
  }

  lemma KingList6()
    ensures Rank(KING_LOOKUP, 6) == [KingAt(48), KingAt(49), KingAt(50), KingAt(51),
      KingAt(52), KingAt(53), KingAt(54), KingAt(55)]
  {}

  lemma KingRank6()
    ensures Rank(KING_LOOKUP, 6) == Eight(KingAt, 48)
  {
    hide KingAt;
    KingList6();
  }

  lemma KingList7()
    ensures Rank(KING_LOOKUP, 7) == [KingAt(56), KingAt(57), KingAt(58), KingAt(59),
      KingAt(60), KingAt(61), KingAt(62), KingAt(63)]
  {}

  lemma KingRank7()
    ensures Rank(KING_LOOKUP, 7) == Eight(KingAt, 56)
  {
    hide KingAt;
    KingList7();
  }

  /** Rank `r` of the KING_LOOKUP table agrees with the shift construction. */
  lemma KingRank(r: nat)
    requires r < 8
    ensures Rank(KING_LOOKUP, r) == Eight(KingAt, 8 * r)
  {
    hide KingAt;
    if r == 0 { KingRank0(); } else if r == 1 { KingRank1(); } else if r == 2 { KingRank2(); } else if r == 3 { KingRank3(); } else if r == 4 { KingRank4(); } else if r == 5 { KingRank5(); } else if r == 6 { KingRank6(); } else { KingRank7(); }
  }

  /** Every entry of KING_LOOKUP is the shift construction applied to its own square. */
  lemma KingLookupShift(square: nat)
    requires square < 64
    ensures KING_LOOKUP[square] == KingAt(square)
  {
    hide KingAt;
    forall r: nat | r < 8
      ensures Rank(KING_LOOKUP, r) == Eight(KingAt, 8 * r)
    {
      KingRank(r);
    }
    RanksAgree(KING_LOOKUP, KingAt, square);
  }

  /** The knight shift construction for square `i`. */
  function KnightAt(i: nat): bv64
  {
    if i < 64 then KnightShift(Bit(i)) else 0
  }


  lemma KnightList0()
    ensures Rank(KNIGHTS_LOOKUP, 0) == [KnightAt(0), KnightAt(1), KnightAt(2), KnightAt(3),
      KnightAt(4), KnightAt(5), KnightAt(6), KnightAt(7)]
  {}

  lemma KnightRank0()
    ensures Rank(KNIGHTS_LOOKUP, 0) == Eight(KnightAt, 0)
  {
    hide KnightAt;
    KnightList0();
  }

  lemma KnightList1()
    ensures Rank(KNIGHTS_LOOKUP, 1) == [KnightAt(8), KnightAt(9), KnightAt(10), KnightAt(11),
      KnightAt(12), KnightAt(13), KnightAt(14), KnightAt(15)]
  {}

  lemma KnightRank1()
    ensures Rank(KNIGHTS_LOOKUP, 1) == Eight(KnightAt, 8)
  {
    hide KnightAt;
    KnightList1();
  }

  lemma KnightList2()
    ensures Rank(KNIGHTS_LOOKUP, 2) == [KnightAt(16), KnightAt(17), KnightAt(18), KnightAt(19),
      KnightAt(20), KnightAt(21), KnightAt(22), KnightAt(23)]
  {}

  lemma KnightRank2()
    ensures Rank(KNIGHTS_LOOKUP, 2) == Eight(KnightAt, 16)
  {
    hide KnightAt;
    KnightList2();
  }

  lemma KnightList3()
    ensures Rank(KNIGHTS_LOOKUP, 3) == [KnightAt(24), KnightAt(25), KnightAt(26), KnightAt(27),
      KnightAt(28), KnightAt(29), KnightAt(30), KnightAt(31)]
  {}

  lemma KnightRank3()
    ensures Rank(KNIGHTS_LOOKUP, 3) == Eight(KnightAt, 24)
  {
    hide KnightAt;
    KnightList3();
  }

  lemma KnightList4()
    ensures Rank(KNIGHTS_LOOKUP, 4) == [KnightAt(32), KnightAt(33), KnightAt(34), KnightAt(35),
      KnightAt(36), KnightAt(37), KnightAt(38), KnightAt(39)]
  {}

  lemma KnightRank4()
    ensures Rank(KNIGHTS_LOOKUP, 4) == Eight(KnightAt, 32)
  {
    hide KnightAt;
    KnightList4();
  }

  lemma KnightList5()
    ensures Rank(KNIGHTS_LOOKUP, 5) == [KnightAt(40), KnightAt(41), KnightAt(42), KnightAt(43),
      KnightAt(44), KnightAt(45), KnightAt(46), KnightAt(47)]
  {}

  lemma KnightRank5()
    ensures Rank(KNIGHTS_LOOKUP, 5) == Eight(KnightAt, 40)
  {
    hide KnightAt;
    KnightList5();
  }

  lemma KnightList6()
    ensures Rank(KNIGHTS_LOOKUP, 6) == [KnightAt(48), KnightAt(49), KnightAt(50), KnightAt(51),
      KnightAt(52), KnightAt(53), KnightAt(54), KnightAt(55)]
  {}

  lemma KnightRank6()
    ensures Rank(KNIGHTS_LOOKUP, 6) == Eight(KnightAt, 48)
  {
    hide KnightAt;
    KnightList6();
  }

  lemma KnightList7()
    ensures Rank(KNIGHTS_LOOKUP, 7) == [KnightAt(56), KnightAt(57), KnightAt(58), KnightAt(59),
      KnightAt(60), KnightAt(61), KnightAt(62), KnightAt(63)]
  {}

  lemma KnightRank7()
    ensures Rank(KNIGHTS_LOOKUP, 7) == Eight(KnightAt, 56)
  {
    hide KnightAt;
    KnightList7();
  }

  /** Rank `r` of the KNIGHTS_LOOKUP table agrees with the shift construction. */
  lemma KnightRank(r: nat)
    requires r < 8
    ensures Rank(KNIGHTS_LOOKUP, r) == Eight(KnightAt, 8 * r)
  {
    hide KnightAt;
    if r == 0 { KnightRank0(); } else if r == 1 { KnightRank1(); } else if r == 2 { KnightRank2(); } else if r == 3 { KnightRank3(); } else if r == 4 { KnightRank4(); } else if r == 5 { KnightRank5(); } else if r == 6 { KnightRank6(); } else { KnightRank7(); }
  }

  /** Every entry of KNIGHTS_LOOKUP is the shift construction applied to its own square. */
  lemma KnightLookupShift(square: nat)
    requires square < 64
    ensures KNIGHTS_LOOKUP[square] == KnightAt(square)
  {
    hide KnightAt;
    forall r: nat | r < 8
      ensures Rank(KNIGHTS_LOOKUP, r) == Eight(KnightAt, 8 * r)
    {
      KnightRank(r);
    }
    RanksAgree(KNIGHTS_LOOKUP, KnightAt, square);
  }

  /** The shift construction on one square yields exactly the king steps from it. */
  lemma KingShiftSteps(k: bv64)
    requires k < 64
    ensures KingShift((1 as bv64) << k) == KingSteps(k)
  {}

  /** The shift construction on one square yields exactly the knight jumps from it. */
  lemma KnightShiftSteps(k: bv64)
    requires k < 64
    ensures KnightShift((1 as bv64) << k) == KnightSteps(k)
  {}

  lemma KingShiftExcludes(b: bv64)
    requires IsSingle(b)
    ensures Disjoint(KingShift(b), b)
  {}

  lemma KnightShiftExcludes(b: bv64)
    requires IsSingle(b)
    ensures Disjoint(KnightShift(b), b)
  {}

  /** KING_LOOKUP[square] is exactly the set of squares adjacent to `square`, which excludes the square itself. */
  lemma KingLookupSteps(square: nat)
    requires square < 64
    ensures KING_LOOKUP[square] == KingSteps(square as bv64)
    ensures Disjoint(KING_LOOKUP[square], Bit(square))
  {
    hide KingShift, KingSteps, Bit, Disjoint;
    KingLookupShift(square);
    BitShift(square);
    KingShiftSteps(square as bv64);
    BitSingle(square);
    KingShiftExcludes(Bit(square));
  }

  /** KNIGHTS_LOOKUP[square] is exactly the set of knight jumps from `square`, which excludes the square itself. */
  lemma KnightLookupSteps(square: nat)
    requires square < 64
    ensures KNIGHTS_LOOKUP[square] == KnightSteps(square as bv64)
    ensures Disjoint(KNIGHTS_LOOKUP[square], Bit(square))
  {
    hide KnightShift, KnightSteps, Bit, Disjoint;
    KnightLookupShift(square);
    BitShift(square);
    KnightShiftSteps(square as bv64);
    BitSingle(square);
    KnightShiftExcludes(Bit(square));
  }
}
