/**
 * The two kinds of car of the game process: the player's car (`Player`), whose
 * fields its methods update in place, and the obstacles (`Obstacle`), which
 * fall down their lane at the speed they were created with.
 */
module Actors {
  import opened Wrappers
  import opened Settings
  import opened Geometry
  import opened Colors

  function PlayerWidth(lanes: int): int
    requires MIN_LANES <= lanes <= MAX_LANES
  {
    LaneWidth(lanes) - PLAYER_WIDTH_OFFSET
  }

  function ObstacleWidth(lanes: int): int
    requires MIN_LANES <= lanes <= MAX_LANES
  {
    LaneWidth(lanes) - OBSTACLE_WIDTH_OFFSET
  }

  /** Left edge of a car `carWidth` wide centred in `lane`. */
  function SlotX(lanes: int, lane: int, carWidth: int): int
    requires MIN_LANES <= lanes <= MAX_LANES
  {
    lane * LaneWidth(lanes) + (LaneWidth(lanes) - carWidth) / 2
  }

  function Abs(v: real): real {
    if v < 0.0 then -v else v
  }

  function Min(a: real, b: real): real {
    if a < b then a else b
  }

  /** `math.copysign(m, s)` for a magnitude `m >= 0`. */
  function CopySign(m: real, s: real): real {
    if s < 0.0 then -m else m
  }

  /**
   * One easing step of `Player.update` when the car is at least half a pixel
   * from its target: move by `min(|dx|, 22 * (1 + |dx| / 100))` toward it.
   */
  function SlideStep(current: real, target: real): (next: real)
    requires Abs(target - current) >= 0.5
    ensures current < target ==> current < next <= target
    ensures target < current ==> target <= next < current
    ensures Abs(target - current) <= SLIDE_SPEED ==> next == target
    ensures Abs(target - next) < Abs(target - current)
  {
    var dx := target - current;
    current + CopySign(Min(Abs(dx), SLIDE_SPEED * (1.0 + Abs(dx) / 100.0)), dx)
  }

  /**
   * Where `Player.update` puts a car at `x` heading for `target`: onto the
   * target within half a pixel, one easing step towards it otherwise.
   */
  function Glide(x: real, target: real): (y: real)
    ensures Abs(target - x) < 0.5 ==> y == target
    ensures Abs(target - x) >= 0.5 ==> Abs(target - y) < Abs(target - x)
  {
    if Abs(target - x) < 0.5 then target else SlideStep(x, target)
  }

  /**
   * The target lane after the steering keys `keys` are handled from left to
   * right by a car in logical lane `logical` at `x`, aiming at `target`: a
   * key is ignored while the car is more than two pixels from its target's
   * slot, and otherwise retargets to the clamped neighbour it asks for,
   * unless that is the logical lane.
   */
  function SteeredLane(lanes: int, logical: int, x: real, target: int, keys: seq<int>): int
    requires MIN_LANES <= lanes <= MAX_LANES
    decreases |keys|
  {
    if keys == [] then target
    else
      var lane := ClampLane(lanes, logical + keys[0]);
      var next :=
        if Abs(SlotX(lanes, target, PlayerWidth(lanes)) as real - x) > 2.0 || lane == logical then target
        else lane;
      SteeredLane(lanes, logical, x, next, keys[1..])
  }

  /** A car more than two pixels from its target's slot ignores every key. */
  lemma {:induction false} SteeringIgnoredWhileMoving(lanes: int, logical: int, x: real, target: int, keys: seq<int>)
    requires MIN_LANES <= lanes <= MAX_LANES
    requires Abs(SlotX(lanes, target, PlayerWidth(lanes)) as real - x) > 2.0
    ensures SteeredLane(lanes, logical, x, target, keys) == target
    decreases |keys|
  {
    if keys != [] {
      SteeringIgnoredWhileMoving(lanes, logical, x, target, keys[1..]);
    }
  }

  /** Two different lanes' slots are a whole lane width, more than two pixels, apart. */
  lemma SlotsApart(lanes: int, a: int, b: int)
    requires MIN_LANES <= lanes <= MAX_LANES && a != b
    ensures Abs(SlotX(lanes, a, PlayerWidth(lanes)) as real - SlotX(lanes, b, PlayerWidth(lanes)) as real) > 2.0
  {
    var w := LaneWidth(lanes);
    assert w >= 80;
    if a < b {
      assert a * w + w <= b * w;
    } else {
      assert b * w + w <= a * w;
    }
  }

  /** Every target a key can set is the clamped neighbour that key asks for. */
  lemma {:induction false} SteeredLaneFromKeys(lanes: int, logical: int, x: real, target: int, keys: seq<int>)
    requires MIN_LANES <= lanes <= MAX_LANES
    ensures var r := SteeredLane(lanes, logical, x, target, keys);
      r == target || exists i :: 0 <= i < |keys| && r == ClampLane(lanes, logical + keys[i])
    decreases |keys|
  {
    if keys != [] {
      var r := SteeredLane(lanes, logical, x, target, keys);
      var lane := ClampLane(lanes, logical + keys[0]);
      var next :=
        if Abs(SlotX(lanes, target, PlayerWidth(lanes)) as real - x) > 2.0 || lane == logical then target
        else lane;
      SteeredLaneFromKeys(lanes, logical, x, next, keys[1..]);
      if r != next {
        var i :| 0 <= i < |keys[1..]| && r == ClampLane(lanes, logical + keys[1..][i]);
        assert keys[i + 1] == keys[1..][i];
      }
    }
  }

  /** None of the first `n` keys asks for a lane other than `logical`. */
  ghost predicate NoKeyMovesBefore(lanes: int, logical: int, keys: seq<int>, n: int)
    requires MIN_LANES <= lanes <= MAX_LANES && 0 <= n <= |keys|
  {
    forall j :: 0 <= j < n ==> ClampLane(lanes, logical + keys[j]) == logical
  }

  /** A first key that keeps the lane extends a run of such keys by one. */
  lemma NoKeyMovesAfterStay(lanes: int, logical: int, keys: seq<int>, n: int)
    requires MIN_LANES <= lanes <= MAX_LANES && 0 <= n < |keys| && ClampLane(lanes, logical + keys[0]) == logical
    requires NoKeyMovesBefore(lanes, logical, keys[1..], n)
    ensures NoKeyMovesBefore(lanes, logical, keys, n + 1)
  {
    forall j | 0 <= j < n + 1 ensures ClampLane(lanes, logical + keys[j]) == logical {
      if j > 0 { assert keys[j] == keys[1..][j - 1]; }
    }
  }

  /**
   * A car resting in its lane takes at most one lane change per frame: the
   * first key that asks for another lane decides the target, and every key
   * after it is ignored.
   */
  lemma {:induction false} FirstRetargetingKeyWins(lanes: int, logical: int, keys: seq<int>)
    requires MIN_LANES <= lanes <= MAX_LANES
    ensures var r := SteeredLane(lanes, logical, SlotX(lanes, logical, PlayerWidth(lanes)) as real, logical, keys);
      || (r == logical && NoKeyMovesBefore(lanes, logical, keys, |keys|))
      || (exists i :: 0 <= i < |keys| && r == ClampLane(lanes, logical + keys[i]) != logical
            && NoKeyMovesBefore(lanes, logical, keys, i))
    decreases |keys|
  {
    var x := SlotX(lanes, logical, PlayerWidth(lanes)) as real;
    if keys != [] {
      var lane := ClampLane(lanes, logical + keys[0]);
      if lane == logical {
        FirstRetargetingKeyWins(lanes, logical, keys[1..]);
        var r := SteeredLane(lanes, logical, x, logical, keys[1..]);
        assert SteeredLane(lanes, logical, x, logical, keys) == r;
        if r == logical && NoKeyMovesBefore(lanes, logical, keys[1..], |keys[1..]|) {
          NoKeyMovesAfterStay(lanes, logical, keys, |keys[1..]|);
        } else {
          var i :| 0 <= i < |keys[1..]| && r == ClampLane(lanes, logical + keys[1..][i]) != logical
            && NoKeyMovesBefore(lanes, logical, keys[1..], i);
          assert keys[i + 1] == keys[1..][i];
          NoKeyMovesAfterStay(lanes, logical, keys, i);
        }
      } else {
        SlotsApart(lanes, lane, logical);
        SteeringIgnoredWhileMoving(lanes, logical, x, lane, keys[1..]);
        assert NoKeyMovesBefore(lanes, logical, keys, 0);
      }
    }
  }

  /** `max(0, min(lanes - 1, lane))`. */
  function ClampLane(lanes: int, lane: int): (r: int)
    requires lanes >= 1
    ensures 0 <= r < lanes
    ensures 0 <= lane < lanes ==> r == lane
  {
    if lane < 0 then 0 else if lane > lanes - 1 then lanes - 1 else lane
  }

  class Player {
    const lanes: int
    const width: int
    var logicalLane: int
    var targetLane: int
    var currentX: real
    var targetX: real
    var color: Rgb

    /** Left edge of the car when it sits in `lane`. */
    function Slot(lane: int): real
      reads this
      requires MIN_LANES <= lanes <= MAX_LANES
    {
      SlotX(lanes, lane, width) as real
    }

    /** The target slot lies between the outermost slots. */
    lemma SlotsOrdered(lane: int)
      requires MIN_LANES <= lanes <= MAX_LANES && 0 <= lane < lanes
      ensures Slot(0) <= Slot(lane) <= Slot(lanes - 1)
    {
      var w := LaneWidth(lanes);
      assert 0 * w <= lane * w <= (lanes - 1) * w;
    }

    /**
     * Both lanes are real lanes, the target position is the target lane's
     * slot, the car is never outside the outer slots, and the logical lane
     * equals the target lane only once the car has arrived.
     */
    ghost predicate Valid()
      reads this
    {
      && MIN_LANES <= lanes <= MAX_LANES
      && width == PlayerWidth(lanes)
      && 0 <= logicalLane < lanes
      && 0 <= targetLane < lanes
      && targetX == Slot(targetLane)
      && Slot(0) <= currentX <= Slot(lanes - 1)
      && (logicalLane == targetLane ==> currentX == targetX)
    }

    /** `Player.__init__`: the car starts at rest in the middle lane `lanes // 2`. */
    constructor (lanes: int, color: Rgb)
      requires MIN_LANES <= lanes <= MAX_LANES
      ensures Valid()
      ensures this.lanes == lanes && this.color == color
      ensures logicalLane == targetLane == lanes / 2
      ensures currentX == targetX == Slot(lanes / 2)
    {
      this.lanes := lanes;
      width := PlayerWidth(lanes);
      logicalLane := lanes / 2;
      targetLane := lanes / 2;
      currentX := SlotX(lanes, lanes / 2, PlayerWidth(lanes)) as real;
      targetX := SlotX(lanes, lanes / 2, PlayerWidth(lanes)) as real;
      this.color := color;
    }

    /** `Player.rect`. */
    function Rect(): Rect
      reads this
    {
      Geometry.Rect(Trunc(currentX), PLAYER_Y, width, PLAYER_HEIGHT)
    }

    /**
     * `request_lane_change(delta)`: ignored while the car is more than two
     * pixels from its target; otherwise retargets to the clamped lane next to
     * the logical lane, unless that is the logical lane itself.
     */
    method RequestLaneChange(delta: int)
      requires Valid()
      modifies this`targetLane, this`targetX
      ensures Valid()
      ensures Abs(old(targetX) - currentX) > 2.0 ==> targetLane == old(targetLane) && targetX == old(targetX)
      ensures Abs(old(targetX) - currentX) <= 2.0 ==>
        var lane := ClampLane(lanes, logicalLane + delta);
        if lane == logicalLane then targetLane == old(targetLane) && targetX == old(targetX)
        else targetLane == lane && targetX == Slot(lane)
    {
      if Abs(targetX - currentX) > 2.0 {
        return;
      }
      var lane := ClampLane(lanes, logicalLane + delta);
      if lane == logicalLane {
        return;
      }
      targetLane := lane;
      targetX := Slot(lane);
    }

    /**
     * `update`: within half a pixel the car snaps onto the target and only
     * then takes the target lane as its logical lane; farther away it eases
     * toward the target without passing it.
     */
    method Update()
      requires Valid()
      modifies this`currentX, this`logicalLane
      ensures Valid()
      ensures currentX == Glide(old(currentX), targetX)
      ensures Abs(targetX - old(currentX)) < 0.5 ==> currentX == targetX && logicalLane == targetLane
      ensures Abs(targetX - old(currentX)) >= 0.5 ==>
        && logicalLane == old(logicalLane)
        && currentX == SlideStep(old(currentX), targetX)
        && Abs(targetX - currentX) < Abs(targetX - old(currentX))
    {
      var dx := targetX - currentX;
      SlotsOrdered(targetLane);
      if Abs(dx) < 0.5 {
        currentX := targetX;
        logicalLane := targetLane;
      } else {
        currentX := SlideStep(currentX, targetX);
      }
    }

    /** `update_color`: a parsed colour replaces the current one. */
    method UpdateColor(rgb: Option<Rgb>)
      modifies this`color
      ensures color == rgb.GetOr(old(color))
    {
      if rgb.Some? {
        color := rgb.value;
      }
    }
  }

  /** An obstacle car: its lane, vertical position and fall speed. */
  datatype Obstacle = Obstacle(lane: int, y: real, speed: real)

  /** `Obstacle.update`: one tick of falling. */
  function Advanced(o: Obstacle): Obstacle {
    o.(y := o.y + o.speed)
  }

  /** `Obstacle.rect`. */
  function ObstacleRect(lanes: int, o: Obstacle): Rect
    requires MIN_LANES <= lanes <= MAX_LANES
  {
    Geometry.Rect(SlotX(lanes, o.lane, ObstacleWidth(lanes)), Trunc(o.y), ObstacleWidth(lanes), OBSTACLE_HEIGHT)
  }

  /** The obstacle has gone past the bottom and is removed (scoring a point). */
  predicate IsPassed(o: Obstacle) {
    o.y > REMOVE_BELOW_Y
  }

  /**
   * The obstacle list after one tick of the advance loop: every obstacle
   * falls once, those past the bottom are removed, the rest keep their order.
   */
  function Survivors(obs: seq<Obstacle>): (r: seq<Obstacle>)
    ensures |r| <= |obs|
    ensures forall i :: 0 <= i < |r| ==> !IsPassed(r[i])
  {
    if obs == [] then []
    else
      var o := Advanced(obs[|obs| - 1]);
      Survivors(obs[..|obs| - 1]) + (if IsPassed(o) then [] else [o])
  }

  /** How many obstacles go past the bottom in one tick. */
  function PassedCount(obs: seq<Obstacle>): (n: nat)
    ensures n <= |obs|
  {
    if obs == [] then 0
    else PassedCount(obs[..|obs| - 1]) + (if IsPassed(Advanced(obs[|obs| - 1])) then 1 else 0)
  }

  /** Advancing one more obstacle extends the survivors and the count by its outcome. */
  lemma SurvivorsStep(obs: seq<Obstacle>, i: int)
    requires 0 <= i < |obs|
    ensures IsPassed(Advanced(obs[i])) ==>
      Survivors(obs[..i + 1]) == Survivors(obs[..i]) && PassedCount(obs[..i + 1]) == PassedCount(obs[..i]) + 1
    ensures !IsPassed(Advanced(obs[i])) ==>
      Survivors(obs[..i + 1]) == Survivors(obs[..i]) + [Advanced(obs[i])] && PassedCount(obs[..i + 1]) == PassedCount(obs[..i])
  {
    assert obs[..i + 1][..i] == obs[..i];
    assert Survivors(obs[..i]) + [] == Survivors(obs[..i]);
  }

  /** Overwriting the element between two runs leaves both runs as they were. */
  lemma ReplaceMiddle<T>(a: seq<T>, x: T, y: T, b: seq<T>)
    ensures (a + [x] + b)[|a| := y] == a + [y] + b
  {
    var r := (a + [x] + b)[|a| := y];
    forall k | 0 <= k < |r|
      ensures r[k] == (a + [y] + b)[k]
    {
    }
  }

  /** Dropping the element between two runs joins the runs. */
  lemma RemoveMiddle<T>(a: seq<T>, x: T, b: seq<T>)
    ensures (a + [x] + b)[..|a|] + (a + [x] + b)[|a| + 1..] == a + b
  {
    assert (a + [x] + b)[..|a|] == a;
    assert (a + [x] + b)[|a| + 1..] == b;
  }

  /**
   * One turn of the advance loop, done in place: with the survivors of the
   * first `i` obstacles followed by the unvisited ones in `cur`, the next
   * obstacle sits right after the survivors; removing it or writing back its
   * advanced form gives the same picture one obstacle further on.
   */
  lemma AdvanceOne(snapshot: seq<Obstacle>, i: int, cur: seq<Obstacle>)
    requires 0 <= i < |snapshot| && cur == Survivors(snapshot[..i]) + snapshot[i..]
    ensures var at := |cur| - (|snapshot| - i);
      && 0 <= at < |cur| && cur[at] == snapshot[i]
      && (IsPassed(Advanced(snapshot[i])) ==>
           && cur[..at] + cur[at + 1..] == Survivors(snapshot[..i + 1]) + snapshot[i + 1..]
           && PassedCount(snapshot[..i + 1]) == PassedCount(snapshot[..i]) + 1)
      && (!IsPassed(Advanced(snapshot[i])) ==>
           && cur[at := Advanced(snapshot[i])] == Survivors(snapshot[..i + 1]) + snapshot[i + 1..]
           && PassedCount(snapshot[..i + 1]) == PassedCount(snapshot[..i]))
  {
    var done := Survivors(snapshot[..i]);
    var rest := snapshot[i + 1..];
    SurvivorsStep(snapshot, i);
    assert snapshot[i..] == [snapshot[i]] + rest;
    assert cur == done + [snapshot[i]] + rest;
    if IsPassed(Advanced(snapshot[i])) {
      RemoveMiddle(done, snapshot[i], rest);
    } else {
      ReplaceMiddle(done, snapshot[i], Advanced(snapshot[i]), rest);
    }
  }

  /**
   * The advance loop over a copy of the obstacle list, changing the list in
   * place: every obstacle falls once, and one that has gone past the bottom
   * is removed and counted. The list is always the advanced survivors so far
   * followed by the obstacles not yet visited.
   */
  method AdvanceAll(obs: seq<Obstacle>) returns (live: seq<Obstacle>, passed: nat)
    ensures live == Survivors(obs) && passed == PassedCount(obs)
  {
    live := obs;
    passed := 0;
    var i := 0;
    while i < |obs|
      invariant 0 <= i <= |obs|
      invariant live == Survivors(obs[..i]) + obs[i..]
      invariant passed == PassedCount(obs[..i])
    {
      AdvanceOne(obs, i, live);
      var at := |live| - (|obs| - i);
      var ob := Advanced(live[at]);
      if IsPassed(ob) {
        live := live[..at] + live[at + 1..];
        passed := passed + 1;
      } else {
        live := live[at := ob];
      }
      i := i + 1;
    }
    assert obs[..|obs|] == obs;
  }

  /** Every obstacle is either kept or counted as passed, never both. */
  lemma {:induction false} SurvivorsPlusPassed(obs: seq<Obstacle>)
    ensures |Survivors(obs)| + PassedCount(obs) == |obs|
  {
    if obs != [] {
      SurvivorsPlusPassed(obs[..|obs| - 1]);
    }
  }

  /**
   * Advancing two runs of obstacles one after the other is advancing their
   * concatenation: the survivors keep the relative order they had.
   */
  lemma {:induction false} SurvivorsOfConcat(a: seq<Obstacle>, b: seq<Obstacle>)
    ensures Survivors(a + b) == Survivors(a) + Survivors(b)
    ensures PassedCount(a + b) == PassedCount(a) + PassedCount(b)
    decreases |b|
  {
    if b == [] {
      assert a + b == a;
    } else {
      var b' := b[..|b| - 1];
      assert (a + b)[..|a + b| - 1] == a + b';
      SurvivorsOfConcat(a, b');
    }
  }

  /** A survivor is always the advanced form of an obstacle that was there. */
  lemma {:induction false} SurvivorsCameFromInput(obs: seq<Obstacle>, o: Obstacle)
    requires o in Survivors(obs)
    ensures exists i :: 0 <= i < |obs| && o == Advanced(obs[i]) && !IsPassed(o)
  {
    var rest := obs[..|obs| - 1];
    if o in Survivors(rest) {
      SurvivorsCameFromInput(rest, o);
      var i :| 0 <= i < |rest| && o == Advanced(rest[i]) && !IsPassed(o);
      assert obs[i] == rest[i];
    } else {
      assert o == Advanced(obs[|obs| - 1]);
    }
  }

  /** Advancing moves obstacles down, never across lanes. */
  lemma SurvivorsStayInLanes(obs: seq<Obstacle>, lanes: int)
    requires forall i :: 0 <= i < |obs| ==> 0 <= obs[i].lane < lanes
    ensures forall i :: 0 <= i < |Survivors(obs)| ==> 0 <= Survivors(obs)[i].lane < lanes
  {
    var r := Survivors(obs);
    forall k | 0 <= k < |r|
      ensures 0 <= r[k].lane < lanes
    {
      SurvivorsCameFromInput(obs, r[k]);
    }
  }

  /**
   * An obstacle is kept exactly when its advanced form has not gone past the
   * bottom.
   */
  lemma {:induction false} SurvivorIff(obs: seq<Obstacle>, i: int)
    requires 0 <= i < |obs|
    ensures Advanced(obs[i]) in Survivors(obs) <==> !IsPassed(Advanced(obs[i]))
  {
    var rest := obs[..|obs| - 1];
    if i < |obs| - 1 && !IsPassed(Advanced(obs[i])) {
      assert obs[i] == rest[i];
      SurvivorIff(rest, i);
    }
  }

  /**
   * Cars resting in different lanes never collide: the player's car and an
   * obstacle are both narrower than a lane and centred in their own lane.
   */
  lemma SettledCarsInOtherLanesDoNotCollide(lanes: int, playerLane: int, o: Obstacle)
    requires MIN_LANES <= lanes <= MAX_LANES
    requires 0 <= playerLane < lanes && 0 <= o.lane < lanes && o.lane != playerLane
    ensures !Collide(Geometry.Rect(SlotX(lanes, playerLane, PlayerWidth(lanes)), PLAYER_Y, PlayerWidth(lanes), PLAYER_HEIGHT),
                     ObstacleRect(lanes, o))
  {
    var w := LaneWidth(lanes);
    if o.lane < playerLane {
      assert (o.lane + 1) * w <= playerLane * w;
    } else {
      assert (playerLane + 1) * w <= o.lane * w;
    }
  }
}
