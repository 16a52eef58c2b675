/**
 * The movement resolver of MoveTask: where an actor standing on `position`
 * lands when it steps in `direction`, given what occupies the grid.
 *
 * The resolver answers with a tile; Vector2.zero stands for "rejected". It
 * reads nothing but the occupancy query, so it is stated once as a function
 * (`Destination`, used by the functions and lemmas of the model) and once as
 * the loop the source runs (`TryMove`), proved equal to it.
 */
module Movement {
  import opened Grid

  /** Actor.MaxFallCheck: how many downward steps the fall search may take. */
  const MaxFallCheck: nat := 50

  /** The tile `k` rows below `p`. */
  function Below(p: Vec2, k: nat): Vec2 {
    Vec2(p.x, p.y - k)
  }

  /**
   * The fall search, resumed at `offset` after `fallCheck` downward steps:
   * step down while the tile under `offset` is free and the step budget
   * lasts; a search that used up the whole budget is a rejection.
   */
  function Fall(occupied: Occupancy, offset: Vec2, fallCheck: nat): Vec2
    requires fallCheck <= MaxFallCheck
    decreases MaxFallCheck - fallCheck
  {
    if !occupied(offset.Plus(Down)) && fallCheck < MaxFallCheck then
      Fall(occupied, offset.Plus(Down), fallCheck + 1)
    else if fallCheck == MaxFallCheck then
      Zero
    else
      offset
  }

  /**
   * MoveTask.TryMove: a free target tile starts a fall search; an occupied
   * one is climbed when the tile above it is free; anything else is rejected.
   */
  function Destination(occupied: Occupancy, position: Vec2, direction: Vec2): Vec2 {
    var target := position.Plus(direction);
    if !occupied(target) then
      Fall(occupied, target, 0)
    else if !occupied(target.Plus(Up)) then
      target.Plus(Up)
    else
      Zero
  }

  /**
   * The reference definition of a landing: from the free tile `target` the
   * mover drops `k` rows, through free tiles only, onto an occupied tile, and
   * within the step budget.
   */
  ghost predicate LandsAt(occupied: Occupancy, target: Vec2, k: nat) {
    && k < MaxFallCheck
    && (forall j :: 1 <= j <= k ==> !occupied(Below(target, j)))
    && occupied(Below(target, k + 1))
  }

  /** Every tile the fall search probes before its budget runs out is free. */
  ghost predicate FallsPastLimit(occupied: Occupancy, target: Vec2) {
    forall j :: 1 <= j <= MaxFallCheck ==> !occupied(Below(target, j))
  }

  /** One step of the fall search: reject at the budget, stop on an occupied tile, else go one row down. */
  lemma FallStep(occupied: Occupancy, here: Vec2, c: nat)
    requires c <= MaxFallCheck
    ensures c == MaxFallCheck ==> Fall(occupied, here, c) == Zero
    ensures c < MaxFallCheck && occupied(here.Plus(Down)) ==> Fall(occupied, here, c) == here
    ensures c < MaxFallCheck && !occupied(here.Plus(Down)) ==>
              Fall(occupied, here, c) == Fall(occupied, here.Plus(Down), c + 1)
  {
  }

  /**
   * The fall search resumed after `c` free rows ends on the landing tile
   * when there is one, and in the rejection value when the budget runs out.
   */
  lemma {:induction false} FallFrom(occupied: Occupancy, target: Vec2, c: nat) returns (k: nat)
    requires c <= MaxFallCheck
    requires forall j :: 1 <= j <= c ==> !occupied(Below(target, j))
    ensures || (c <= k && LandsAt(occupied, target, k) && Fall(occupied, Below(target, c), c) == Below(target, k))
            || (FallsPastLimit(occupied, target) && Fall(occupied, Below(target, c), c) == Zero)
    decreases MaxFallCheck - c
  {
    var here := Below(target, c);
    assert here.Plus(Down) == Below(target, c + 1);
    FallStep(occupied, here, c);
    if c == MaxFallCheck {
      k := c;
      assert FallsPastLimit(occupied, target);
    } else if occupied(Below(target, c + 1)) {
      k := c;
      assert LandsAt(occupied, target, c);
    } else {
      assert forall j :: 1 <= j <= c + 1 ==> !occupied(Below(target, j));
      k := FallFrom(occupied, target, c + 1);
    }
  }

  /** A landing tile, when there is one, is unique. */
  lemma LandingIsUnique(occupied: Occupancy, target: Vec2, k1: nat, k2: nat)
    requires LandsAt(occupied, target, k1) && LandsAt(occupied, target, k2)
    ensures k1 == k2
  {
  }

  /** Either the search runs out of budget or there is a landing tile, never both. */
  lemma FallOutcomes(occupied: Occupancy, target: Vec2)
    ensures FallsPastLimit(occupied, target) <==> !exists k :: LandsAt(occupied, target, k)
  {
    var k := FallFrom(occupied, target, 0);
    if FallsPastLimit(occupied, target) {
      forall k: nat | LandsAt(occupied, target, k) ensures false {
      }
    }
  }

  /**
   * The fall search from a free target lands exactly on the landing tile,
   * and is rejected exactly when every probed tile is free.
   */
  lemma FallSpec(occupied: Occupancy, target: Vec2, k: nat)
    ensures LandsAt(occupied, target, k) ==> Fall(occupied, target, 0) == Below(target, k)
    ensures FallsPastLimit(occupied, target) ==> Fall(occupied, target, 0) == Zero
  {
    var k' := FallFrom(occupied, target, 0);
    assert Below(target, 0) == target;
    if LandsAt(occupied, target, k) {
      FallOutcomes(occupied, target);
      LandingIsUnique(occupied, target, k, k');
    }
  }

  /**
   * TryMove, case by case: a free target yields its landing tile or, past the
   * fall budget, the rejection value; an occupied target yields the tile above
   * it when that is free (a one-tile step-up) and the rejection value otherwise.
   */
  lemma DestinationSpec(occupied: Occupancy, position: Vec2, direction: Vec2, k: nat)
    ensures var target := position.Plus(direction);
            var r := Destination(occupied, position, direction);
            && (!occupied(target) && LandsAt(occupied, target, k) ==> r == Below(target, k))
            && (!occupied(target) && FallsPastLimit(occupied, target) ==> r == Zero)
            && (occupied(target) && !occupied(target.Plus(Up)) ==> r == target.Plus(Up))
            && (occupied(target) && occupied(target.Plus(Up)) ==> r == Zero)
  {
    FallSpec(occupied, position.Plus(direction), k);
  }

  /**
   * From a free target the mover ends on a tile of its own column, at most
   * MaxFallCheck - 1 rows down, with every row it passed free and an
   * occupied tile beneath it; or it is rejected.
   */
  lemma FreeTargetFalls(occupied: Occupancy, position: Vec2, direction: Vec2)
    requires !occupied(position.Plus(direction))
    ensures var target := position.Plus(direction);
            var r := Destination(occupied, position, direction);
            || (exists k :: LandsAt(occupied, target, k) && r == Below(target, k))
            || (FallsPastLimit(occupied, target) && r == Zero)
  {
    var target := position.Plus(direction);
    var k := FallFrom(occupied, target, 0);
    assert Below(target, 0) == target;
  }

  /**
   * The off-by-one at the fall limit: ground met by the last probe the budget
   * allows is accepted only one row short of the limit. A drop of exactly
   * MaxFallCheck rows is rejected, even though its last probe found ground.
   */
  lemma FallLimitBoundary(occupied: Occupancy, target: Vec2)
    requires forall j :: 1 <= j < MaxFallCheck ==> !occupied(Below(target, j))
    ensures occupied(Below(target, MaxFallCheck))
            ==> Fall(occupied, target, 0) == Below(target, MaxFallCheck - 1)
    ensures !occupied(Below(target, MaxFallCheck)) && occupied(Below(target, MaxFallCheck + 1))
            ==> Fall(occupied, target, 0) == Zero
  {
    if occupied(Below(target, MaxFallCheck)) {
      assert LandsAt(occupied, target, MaxFallCheck - 1);
      FallSpec(occupied, target, MaxFallCheck - 1);
    } else {
      FallSpec(occupied, target, 0);
    }
  }

  /**
   * The move is accepted, in terms of the reference definition: a free target
   * with a landing tile, or an occupied target with a free tile above it, and
   * in either case a destination other than the rejection value.
   */
  ghost predicate Accepted(occupied: Occupancy, position: Vec2, direction: Vec2) {
    var target := position.Plus(direction);
    || (!occupied(target) && exists k :: LandsAt(occupied, target, k) && Below(target, k) != Zero)
    || (occupied(target) && !occupied(target.Plus(Up)) && target.Plus(Up) != Zero)
  }

  /** TryMove reports a tile other than the rejection value exactly for accepted moves. */
  lemma AcceptedIff(occupied: Occupancy, position: Vec2, direction: Vec2)
    ensures Destination(occupied, position, direction) != Zero <==> Accepted(occupied, position, direction)
  {
    var target := position.Plus(direction);
    if !occupied(target) {
      FallOutcomes(occupied, target);
      if FallsPastLimit(occupied, target) {
        FallSpec(occupied, target, 0);
      } else {
        var k :| LandsAt(occupied, target, k);
        FallSpec(occupied, target, k);
        forall k' | LandsAt(occupied, target, k') ensures k' == k {
          LandingIsUnique(occupied, target, k, k');
        }
      }
    }
  }

  /**
   * The zero sentinel collides with a legitimate destination: a landing or a
   * step-up onto tile (0,0) is reported as the rejection value.
   */
  lemma SentinelCollision(occupied: Occupancy, position: Vec2, direction: Vec2, k: nat)
    requires var target := position.Plus(direction);
             || (!occupied(target) && LandsAt(occupied, target, k) && Below(target, k) == Zero)
             || (occupied(target) && !occupied(target.Plus(Up)) && target.Plus(Up) == Zero)
    ensures Destination(occupied, position, direction) == Zero
  {
    DestinationSpec(occupied, position, direction, k);
  }

  /**
   * A concrete instance: from (1,0), stepping left onto the free tile (0,0)
   * above ground is a legitimate landing, and it reads as a rejection.
   */
  lemma SentinelCollisionExample()
    ensures var occupied := (p: Vec2) => p == Vec2(0, -1) || p == Vec2(1, 0);
            && LandsAt(occupied, Vec2(0, 0), 0)
            && Destination(occupied, Vec2(1, 0), Left) == Zero
  {
    var occupied := (p: Vec2) => p == Vec2(0, -1) || p == Vec2(1, 0);
    assert Below(Vec2(0, 0), 1) == Vec2(0, -1);
    assert LandsAt(occupied, Vec2(0, 0), 0);
    SentinelCollision(occupied, Vec2(1, 0), Left, 0);
  }

  /**
   * MoveTask.TryMove as the source runs it: one probe for the target, then a
   * bounded loop of downward probes, or one probe above an occupied target.
   */
  method TryMove(occupied: Occupancy, position: Vec2, direction: Vec2) returns (r: Vec2)
    ensures r == Destination(occupied, position, direction)
  {
    var offsetPosition := position.Plus(direction);
    ghost var target := offsetPosition;
    var result := occupied(offsetPosition);
    if !result {
      result := occupied(offsetPosition.Plus(Down));
      var fallCheck: nat := 0;
      while !result && fallCheck < MaxFallCheck
        invariant fallCheck <= MaxFallCheck
        invariant offsetPosition == Below(target, fallCheck)
        invariant result == occupied(offsetPosition.Plus(Down))
        invariant Fall(occupied, offsetPosition, fallCheck) == Fall(occupied, target, 0)
        decreases MaxFallCheck - fallCheck
      {
        fallCheck := fallCheck + 1;
        offsetPosition := offsetPosition.Plus(Down);
        result := occupied(offsetPosition.Plus(Down));
      }
      if fallCheck == MaxFallCheck {
        return Zero;
      } else {
        return offsetPosition;
      }
    } else {
      result := occupied(offsetPosition.Plus(Up));
      if !result {
        offsetPosition := offsetPosition.Plus(Up);
        return offsetPosition;
      }
    }
    return Zero;
  }
}
