/**
 * The run state that `main()` of the game process keeps in local variables,
 * held by one `Game` object, and the steps of one frame that change it:
 * choosing the lane pair, spawning, advancing the obstacles, moving the
 * player, detecting a crash and resetting the run after it.
 *
 * The locals of the spawn scheduler travel together as one record value
 * (`Spawner`), which the game object replaces as a whole at every step.
 */
module GameState {
  import opened Wrappers
  import opened Settings
  import opened Geometry
  import opened Colors
  import opened Knn
  import opened Fifo
  import opened Actors
  import opened Scheduler

  /** The player's colour when none (or no valid one) is given on the command line. */
  const DEFAULT_CAR_COLOR := Rgb(15, 119, 110)

  /** What the game sends to the dashboard when a run ends. */
  datatype ScoreReport = ScoreReport(score: nat, lanes: int)

  /**
   * The player's colour after a dashboard colour poll that answered `polled`
   * (`None`: no poll this frame, or no answer): a parsable colour replaces it.
   */
  function ColorAfterPoll(current: Rgb, polled: Option<string>): (c: Rgb)
    ensures polled.None? ==> c == current
    ensures polled.Some? && HexToRgb(polled.value).Some? ==> c == HexToRgb(polled.value).value
    ensures polled.Some? && HexToRgb(polled.value).None? ==> c == current
  {
    if polled.Some? then HexToRgb(polled.value).GetOr(current) else current
  }

  /**
   * The obstacles the advance loop of a frame sees: those live before the
   * frame, and the one the spawn block appended, if any, at the top of the
   * screen with the current obstacle speed.
   */
  function Entered(before: seq<Obstacle>, spawned: Option<int>, speed: real): seq<Obstacle> {
    before + if spawned.Some? then [Obstacle(spawned.value, SPAWN_Y, speed)] else []
  }

  /** Some obstacle of `obstacles` in `lane` is still above the minimum vertical gap. */
  predicate BlockedIn(obstacles: seq<Obstacle>, lane: int) {
    exists i :: 0 <= i < |obstacles| && obstacles[i].lane == lane && obstacles[i].y < MIN_VERTICAL_GAP
  }

  /**
   * `lane` may receive an obstacle at `now`, among `obstacles` and with
   * `laneTimes` the time each lane last received one.
   */
  predicate LaneOpenIn(obstacles: seq<Obstacle>, laneTimes: seq<int>, lane: int, now: int)
    requires 0 <= lane < |laneTimes|
  {
    !BlockedIn(obstacles, lane) && now - laneTimes[lane] >= MIN_SPAWN_TIME_GAP_MS
  }

  /** The open lanes of the pair starting at lane `p`, in pair order. */
  function OpenLanesIn(obstacles: seq<Obstacle>, laneTimes: seq<int>, p: int, now: int): (c: seq<int>)
    requires 0 <= p && p + 1 < |laneTimes|
    ensures forall l :: l in c <==> l in PairLanes(p) && LaneOpenIn(obstacles, laneTimes, l, now)
  {
    (if LaneOpenIn(obstacles, laneTimes, p, now) then [p] else [])
      + (if LaneOpenIn(obstacles, laneTimes, p + 1, now) then [p + 1] else [])
  }

  /** `{i: -99999 for i in range(n)}`: no lane has received an obstacle yet. */
  function NeverSpawnedTimes(n: nat): (times: seq<int>)
    ensures |times| == n
    ensures forall i :: 0 <= i < n ==> times[i] == NEVER_SPAWNED
  {
    if n == 0 then [] else NeverSpawnedTimes(n - 1) + [NEVER_SPAWNED]
  }

  /**
   * The spawn scheduler's locals of `main()`: the lane pair and its budget,
   * per-lane spawn times, the difficulty ramp, the spawn clock, the previous
   * obstacle (the predictor's context) and the prediction counters.
   */
  datatype Spawner = Spawner(
    currentPair: Option<int>,
    pairSpawnsLeft: int,
    lastLaneSpawnedInPair: Option<int>,
    laneLastSpawnTime: seq<int>,
    spawnInterval: int,
    obstacleSpeed: real,
    lastSpawnTime: int,
    totalSpawned: nat,
    laneRecent: Option<int>,
    lastObstacleSpawnTime: Option<int>,
    lastObstacleLane: Option<int>,
    totalPredictions: nat,
    correctPredictions: nat,
    lastPredictionLabel: Option<int>)
  {
    /**
     * The pair is two neighbouring lanes of the road and the lane last used
     * in it belongs to it; the counters agree with each other; the ramp is
     * where the number of spawns of the run puts it; the previous obstacle is
     * known with both its time and its lane or not at all.
     */
    ghost predicate Valid(lanes: int, hard: bool) {
      && (currentPair.Some? ==> 0 <= currentPair.value < lanes - 1)
      && 0 <= pairSpawnsLeft <= PAIR_DURATION_SPAWNS
      && (lastLaneSpawnedInPair.Some? ==>
            currentPair.Some? && lastLaneSpawnedInPair.value in PairLanes(currentPair.value))
      && |laneLastSpawnTime| == lanes
      && correctPredictions <= totalPredictions <= totalSpawned
      && (lastPredictionLabel.Some? ==> 0 <= lastPredictionLabel.value < lanes)
      && spawnInterval == IntervalAfter(hard, totalSpawned)
      && obstacleSpeed == SpeedAfter(hard, totalSpawned)
      && (lastObstacleSpawnTime.Some? <==> lastObstacleLane.Some?)
      && (lastObstacleLane.Some? ==> 0 <= lastObstacleLane.value < lanes)
      && laneRecent == lastObstacleLane
    }

    /** The spawn interval has elapsed at `now`. */
    predicate Due(now: int) {
      now - lastSpawnTime >= spawnInterval
    }

    /** The predictor's input at `now`, from the previous obstacle. */
    function Context(lanes: int, now: int): Features
      requires MIN_LANES <= lanes <= MAX_LANES
      requires lastObstacleSpawnTime.Some? && lastObstacleLane.Some?
    {
      SpawnFeatures(lanes, lastObstacleLane.value, now - lastObstacleSpawnTime.value, obstacleSpeed)
    }

    /**
     * The pair rotation at the start of a frame's spawn logic: once the pair
     * has had its spawns (or there is none yet) the pair `pick` chooses takes
     * over for the next four spawns, with no lane used in it yet.
     */
    function Rotated(lanes: int, hard: bool, pick: nat): (s: Spawner)
      requires MIN_LANES <= lanes <= MAX_LANES && Valid(lanes, hard)
      ensures s.Valid(lanes, hard)
      ensures s.currentPair.Some? && s.pairSpawnsLeft > 0
      ensures s == this.(currentPair := s.currentPair, pairSpawnsLeft := s.pairSpawnsLeft,
                         lastLaneSpawnedInPair := s.lastLaneSpawnedInPair)
      ensures pairSpawnsLeft > 0 && currentPair.Some? ==> s == this
      ensures pairSpawnsLeft <= 0 || currentPair.None? ==>
        && s.currentPair == Some(ChoosePair(lanes, pick))
        && s.pairSpawnsLeft == PAIR_DURATION_SPAWNS && s.lastLaneSpawnedInPair.None?
    {
      if pairSpawnsLeft <= 0 || currentPair.None? then
        this.(currentPair := Some(ChoosePair(lanes, pick)),
              pairSpawnsLeft := PAIR_DURATION_SPAWNS,
              lastLaneSpawnedInPair := None)
      else this
    }

    /**
     * The bookkeeping of a spawn into `lane` at `now`: the lane and the pair
     * remember it, the prediction (if one was made) is scored against it, one
     * spawn of the pair is used up and the ramp moves on by one step.
     */
    function AfterSpawn(lanes: int, hard: bool, lane: int, now: int, prediction: Option<int>): (s: Spawner)
      requires Valid(lanes, hard)
      requires currentPair.Some? && lane in PairLanes(currentPair.value) && pairSpawnsLeft > 0
      requires prediction.Some? ==> 0 <= prediction.value < lanes
      ensures s.Valid(lanes, hard)
      ensures s.currentPair == currentPair && s.lastSpawnTime == lastSpawnTime
      ensures s.totalSpawned == totalSpawned + 1 && s.pairSpawnsLeft == pairSpawnsLeft - 1
      ensures s.laneLastSpawnTime == laneLastSpawnTime[lane := now]
      ensures s.lastLaneSpawnedInPair == s.laneRecent == s.lastObstacleLane == Some(lane)
      ensures s.lastObstacleSpawnTime == Some(now)
      ensures s.spawnInterval == NextInterval(hard, spawnInterval) <= spawnInterval
      ensures s.obstacleSpeed == obstacleSpeed + ObstacleSpeedIncrement(hard)
      ensures prediction.None? ==>
        && s.totalPredictions == totalPredictions && s.correctPredictions == correctPredictions
        && s.lastPredictionLabel == lastPredictionLabel
      ensures prediction.Some? ==>
        && s.totalPredictions == totalPredictions + 1
        && s.correctPredictions == correctPredictions + (if prediction.value == lane then 1 else 0)
        && s.lastPredictionLabel == prediction
    {
      var scored := if prediction.Some? then
                      this.(totalPredictions := totalPredictions + 1,
                            correctPredictions := correctPredictions + (if prediction.value == lane then 1 else 0),
                            lastPredictionLabel := prediction)
                    else this;
      scored.(laneLastSpawnTime := laneLastSpawnTime[lane := now],
              lastLaneSpawnedInPair := Some(lane),
              laneRecent := Some(lane),
              totalSpawned := totalSpawned + 1,
              lastObstacleSpawnTime := Some(now),
              lastObstacleLane := Some(lane),
              pairSpawnsLeft := pairSpawnsLeft - 1,
              spawnInterval := NextInterval(hard, spawnInterval),
              obstacleSpeed := obstacleSpeed + ObstacleSpeedIncrement(hard))
    }
  }

  /** The spawn clock plays no part in the scheduler's invariant. */
  lemma ClockFree(s: Spawner, lanes: int, hard: bool, t: int)
    requires s.Valid(lanes, hard)
    ensures s.(lastSpawnTime := t).Valid(lanes, hard)
  {
  }

  /** The scheduler at the start of a run that began at `now`. */
  function StartSpawner(lanes: nat, hard: bool, now: int): (s: Spawner)
    ensures s.Valid(lanes, hard)
    ensures s.currentPair.None? && s.pairSpawnsLeft == 0 && s.totalSpawned == 0
    ensures s.spawnInterval == SPAWN_INTERVAL_START_MS && s.obstacleSpeed == ObstacleSpeedStart(hard)
    ensures s.lastSpawnTime == now
    ensures s.lastObstacleSpawnTime.None? && s.totalPredictions == 0 && s.correctPredictions == 0
  {
    Spawner(None, 0, None, NeverSpawnedTimes(lanes), SPAWN_INTERVAL_START_MS, ObstacleSpeedStart(hard),
            now, 0, None, None, None, 0, 0, None)
  }

  class Game {
    const lanes: int
    const hard: bool
    var player: Player
    var knn: TinyKnn
    var obstacles: seq<Obstacle>
    var score: nat
    var spawner: Spawner

    /** The predictor's history holds at most 900 examples, all labelled with real lanes. */
    ghost predicate KnnValid()
      reads this`knn, knn
    {
      && knn.Valid() && knn.k == K_NEIGHBORS
      && |knn.xs| <= MEMORY_LIMIT
      && (forall i :: 0 <= i < |knn.ys| ==> 0 <= knn.ys[i] < lanes)
    }

    /** At most six obstacles are live, each in a real lane. */
    ghost predicate ObstaclesValid()
      reads this`obstacles
    {
      && |obstacles| <= MAX_SIMULTANEOUS_OBSTACLES
      && (forall i :: 0 <= i < |obstacles| ==> 0 <= obstacles[i].lane < lanes)
    }

    /** The car drives on this game's lanes, and their count is in range. */
    ghost predicate PlayerValid()
      reads this`player, player
    {
      && MIN_LANES <= lanes <= MAX_LANES
      && player.Valid() && player.lanes == lanes
    }

    ghost predicate SpawnerValid()
      reads this`spawner
    {
      spawner.Valid(lanes, hard)
    }

    ghost predicate Valid()
      reads this, player, knn
    {
      PlayerValid() && KnnValid() && ObstaclesValid() && SpawnerValid()
    }

    /** Every run-scoped value is at its start value, the run having begun at `now`. */
    ghost predicate AtRunStart(now: int)
      reads this, player, knn
    {
      && player.logicalLane == player.targetLane == lanes / 2
      && player.currentX == player.targetX
      && knn.xs == [] && knn.ys == []
      && obstacles == [] && score == 0
      && 0 <= lanes && spawner == StartSpawner(lanes, hard, now)
    }

    /**
     * Start of `main()`: the requested lane count is clamped, and the car
     * takes the colour given on the command line when it parses.
     */
    constructor (requestedLanes: int, hard: bool, carColor: string, now: int)
      ensures Valid() && AtRunStart(now)
      ensures lanes == ClampLanes(requestedLanes) && this.hard == hard
      ensures player.color == HexToRgb(carColor).GetOr(DEFAULT_CAR_COLOR)
    {
      var n := ClampLanes(requestedLanes);
      lanes := n;
      this.hard := hard;
      player := new Player(n, HexToRgb(carColor).GetOr(DEFAULT_CAR_COLOR));
      knn := new TinyKnn(K_NEIGHBORS);
      obstacles := [];
      score := 0;
      spawner := StartSpawner(n, hard, now);
    }

    /**
     * The reinitialisation after a crash: a new car in the middle lane with
     * the crashed car's colour, a new empty predictor, and every other
     * run-scoped value back at its start value.
     */
    method Reset(now: int)
      requires Valid()
      modifies this
      ensures Valid() && AtRunStart(now)
      ensures fresh(player) && fresh(knn)
      ensures player.color == old(player.color)
    {
      player := new Player(lanes, player.color);
      knn := new TinyKnn(K_NEIGHBORS);
      obstacles := [];
      score := 0;
      spawner := StartSpawner(lanes, hard, now);
    }

    /**
     * Start of a frame's spawn logic: once the pair has had its spawns (or
     * there is none yet) a random pair of neighbouring lanes takes over for
     * the next four spawns, with no lane used in it yet.
     */
    method RotatePair(pick: nat)
      requires Valid()
      modifies this`spawner
      ensures Valid()
      ensures spawner.currentPair.Some? && spawner.pairSpawnsLeft > 0
      ensures old(spawner.pairSpawnsLeft <= 0 || spawner.currentPair.None?) ==>
        spawner == old(spawner).(currentPair := Some(ChoosePair(lanes, pick)),
                                 pairSpawnsLeft := PAIR_DURATION_SPAWNS,
                                 lastLaneSpawnedInPair := None)
      ensures old(spawner.pairSpawnsLeft > 0 && spawner.currentPair.Some?) ==> spawner == old(spawner)
      ensures spawner == old(spawner).Rotated(lanes, hard, pick)
    {
      if spawner.pairSpawnsLeft <= 0 || spawner.currentPair.None? {
        spawner := spawner.(currentPair := Some(ChoosePair(lanes, pick)),
                            pairSpawnsLeft := PAIR_DURATION_SPAWNS,
                            lastLaneSpawnedInPair := None);
      }
    }

    /** Some live obstacle in `lane` is still above the minimum vertical gap. */
    predicate BlockedNearTop(lane: int)
      reads this
    {
      BlockedIn(obstacles, lane)
    }

    /** `lane` may receive an obstacle at time `now`. */
    predicate LaneOpen(lane: int, now: int)
      reads this
      requires 0 <= lane < |spawner.laneLastSpawnTime|
    {
      LaneOpenIn(obstacles, spawner.laneLastSpawnTime, lane, now)
    }

    /** There is a pair and both of its lanes are lanes of the road. */
    predicate PairReady()
      reads this
    {
      && spawner.currentPair.Some?
      && 0 <= spawner.currentPair.value
      && spawner.currentPair.value + 1 < |spawner.laneLastSpawnTime|
    }

    /** `candidate_lanes`: the lanes of the current pair that are open, in pair order. */
    function OpenLanes(now: int): (c: seq<int>)
      reads this
      requires PairReady()
      ensures forall l :: l in c <==> l in PairLanes(spawner.currentPair.value) && LaneOpen(l, now)
    {
      OpenLanesIn(obstacles, spawner.laneLastSpawnTime, spawner.currentPair.value, now)
    }

    /** The spawn interval has elapsed at `now`. */
    predicate Due(now: int)
      reads this
    {
      spawner.Due(now)
    }

    /** A spawn happens at `now`: it is due, there is room, and a lane of the pair is open. */
    predicate SpawnAllowed(now: int)
      reads this
      requires PairReady()
    {
      Due(now) && |obstacles| < MAX_SIMULTANEOUS_OBSTACLES && OpenLanes(now) != []
    }

    /** The predictor's input at `now`, from the previous obstacle. */
    function ContextFeatures(now: int): Features
      reads this
      requires MIN_LANES <= lanes <= MAX_LANES
      requires spawner.lastObstacleSpawnTime.Some? && spawner.lastObstacleLane.Some?
    {
      spawner.Context(lanes, now)
    }

    /** `blocked_by_vert`: one pass over the live obstacles. */
    method IsBlockedNearTop(lane: int) returns (blocked: bool)
      ensures blocked == BlockedNearTop(lane)
    {
      blocked := false;
      var i := 0;
      while i < |obstacles|
        invariant 0 <= i <= |obstacles|
        invariant blocked <==>
          exists j :: 0 <= j < i && obstacles[j].lane == lane && obstacles[j].y < MIN_VERTICAL_GAP
      {
        if obstacles[i].lane == lane && obstacles[i].y < MIN_VERTICAL_GAP {
          blocked := true;
        }
        i := i + 1;
      }
    }

    /** The loop building `candidate_lanes` over the two lanes of the pair. */
    method CandidateLanes(now: int) returns (candidates: seq<int>)
      requires PairReady()
      ensures candidates == OpenLanes(now)
    {
      var pair := PairLanes(spawner.currentPair.value);
      candidates := [];
      for i := 0 to 2
        invariant candidates ==
          (if i >= 1 && LaneOpen(pair[0], now) then [pair[0]] else []) +
          (if i >= 2 && LaneOpen(pair[1], now) then [pair[1]] else [])
      {
        var lane := pair[i];
        var blocked := IsBlockedNearTop(lane);
        var timeOk := now - spawner.laneLastSpawnTime[lane] >= MIN_SPAWN_TIME_GAP_MS;
        if !blocked && timeOk {
          candidates := candidates + [lane];
        }
      }
    }

    /** `knn.add_example` followed by the eviction of the oldest example beyond 900. */
    method Learn(f: Features, lane: int)
      requires KnnValid() && 0 <= lane < lanes
      modifies knn
      ensures KnnValid()
      ensures knn.xs == BoundedAppend(old(knn.xs), f, MEMORY_LIMIT)
      ensures knn.ys == BoundedAppend(old(knn.ys), lane, MEMORY_LIMIT)
    {
      knn.AddExample(f, lane);
      if |knn.xs| > MEMORY_LIMIT {
        knn.EvictOldest();
      }
      forall i | 0 <= i < |knn.ys|
        ensures 0 <= knn.ys[i] < lanes
      {
        BoundedAppendFrom(old(knn.ys), lane, MEMORY_LIMIT, knn.ys[i]);
      }
    }

    /**
     * The choice of the lane for a spawn among the open lanes `candidates`:
     * the alternating or random choice, which the predictor's lane replaces
     * when it is open and the adoption draw succeeds. The predictor is asked
     * only when there was a previous obstacle.
     */
    method ChooseSpawnLane(now: int, candidates: seq<int>, pick: nat, adopt: bool)
      returns (lane: int, prediction: Option<int>)
      requires Valid() && candidates != []
      ensures lane == FinalLane(candidates, spawner.lastLaneSpawnedInPair, pick, prediction, adopt)
      ensures spawner.lastObstacleSpawnTime.None? ==> prediction.None?
      ensures spawner.lastObstacleSpawnTime.Some? ==>
        IsPrediction(knn.xs, knn.ys, K_NEIGHBORS, ContextFeatures(now), prediction)
      ensures prediction.Some? ==> 0 <= prediction.value < lanes
    {
      lane := ChooseLane(candidates, spawner.lastLaneSpawnedInPair, pick);
      prediction := None;
      if spawner.lastObstacleSpawnTime.Some? {
        var features := ContextFeatures(now);
        prediction := knn.Predict(features);
        if prediction.Some? && prediction.value in candidates && adopt {
          lane := prediction.value;
        }
        if prediction.Some? {
          var i :| 0 <= i < |knn.xs| && IsVoter(knn.xs, knn.k, features, i) && knn.ys[i] == prediction.value;
        }
      }
    }

    /**
     * A spawn into one of the open lanes `candidates`: the obstacle enters at
     * the top with the current speed, the predictor learns the lane when it
     * had a context, and the scheduler does its bookkeeping.
     */
    method SpawnInto(now: int, candidates: seq<int>, pick: nat, adopt: bool) returns (lane: int, prediction: Option<int>)
      requires Valid() && PairReady() && candidates == OpenLanes(now) && candidates != []
      requires |obstacles| < MAX_SIMULTANEOUS_OBSTACLES && spawner.pairSpawnsLeft > 0
      modifies this`obstacles, this`spawner, knn
      ensures Valid()
      ensures prediction.Some? ==> 0 <= prediction.value < lanes
      ensures lane in candidates
      ensures lane == FinalLane(candidates, old(spawner.lastLaneSpawnedInPair), pick, prediction, adopt)
      ensures obstacles == old(obstacles) + [Obstacle(lane, SPAWN_Y, old(spawner.obstacleSpeed))]
      ensures spawner == old(spawner).AfterSpawn(lanes, hard, lane, now, prediction)
      ensures old(spawner.lastObstacleSpawnTime).None? ==>
        && prediction.None?
        && knn.xs == old(knn.xs) && knn.ys == old(knn.ys)
      ensures old(spawner.lastObstacleSpawnTime).Some? ==>
        && IsPrediction(old(knn.xs), old(knn.ys), K_NEIGHBORS, old(ContextFeatures(now)), prediction)
        && knn.xs == BoundedAppend(old(knn.xs), old(ContextFeatures(now)), MEMORY_LIMIT)
        && knn.ys == BoundedAppend(old(knn.ys), lane, MEMORY_LIMIT)
    {
      lane, prediction := ChooseSpawnLane(now, candidates, pick, adopt);
      assert lane in PairLanes(spawner.currentPair.value);
      RecordSpawn(lane, now, prediction);
    }

    /**
     * What a spawn into `lane` leaves behind: the scheduler's bookkeeping,
     * the obstacle at the top with the speed before the ramp step, and the
     * predictor's lesson when there was a previous obstacle to learn from.
     */
    method RecordSpawn(lane: int, now: int, prediction: Option<int>)
      requires Valid() && spawner.currentPair.Some? && spawner.pairSpawnsLeft > 0
      requires lane in PairLanes(spawner.currentPair.value) && |obstacles| < MAX_SIMULTANEOUS_OBSTACLES
      requires prediction.Some? ==> 0 <= prediction.value < lanes
      modifies this`obstacles, this`spawner, knn
      ensures Valid()
      ensures obstacles == old(obstacles) + [Obstacle(lane, SPAWN_Y, old(spawner.obstacleSpeed))]
      ensures spawner == old(spawner).AfterSpawn(lanes, hard, lane, now, prediction)
      ensures old(spawner.lastObstacleSpawnTime).None? ==> knn.xs == old(knn.xs) && knn.ys == old(knn.ys)
      ensures old(spawner.lastObstacleSpawnTime).Some? ==>
        && knn.xs == BoundedAppend(old(knn.xs), old(spawner.Context(lanes, now)), MEMORY_LIMIT)
        && knn.ys == BoundedAppend(old(knn.ys), lane, MEMORY_LIMIT)
    {
      var speed := spawner.obstacleSpeed;
      var consulted := spawner.lastObstacleSpawnTime.Some?;
      var features := if consulted then spawner.Context(lanes, now) else Features(0.0, 0.0, 0.0);
      spawner := spawner.AfterSpawn(lanes, hard, lane, now, prediction);
      AppendObstacle(Obstacle(lane, SPAWN_Y, speed));
      if consulted {
        Learn(features, lane);
      }
    }

    /** `obstacles.append(ob)` for an obstacle in a real lane while fewer than six are live. */
    method AppendObstacle(o: Obstacle)
      requires ObstaclesValid() && |obstacles| < MAX_SIMULTANEOUS_OBSTACLES && 0 <= o.lane < lanes
      modifies this`obstacles
      ensures ObstaclesValid() && obstacles == old(obstacles) + [o]
    {
      obstacles := obstacles + [o];
    }

    /**
     * The body of the spawn block once the interval has elapsed: an obstacle
     * appears when fewer than six are live and a lane of the pair is open.
     * `pick` is the draw of `random.choice`, `adopt` the outcome of the
     * adoption test.
     */
    method SpawnIfRoom(now: int, pick: nat, adopt: bool) returns (spawned: Option<int>, prediction: Option<int>)
      requires Valid() && spawner.currentPair.Some? && spawner.pairSpawnsLeft > 0
      modifies this`obstacles, this`spawner, knn
      ensures Valid()
      ensures spawned.Some? <==> old(|obstacles| < MAX_SIMULTANEOUS_OBSTACLES && OpenLanes(now) != [])
      ensures spawned.None? ==>
        && prediction.None?
        && obstacles == old(obstacles) && knn.xs == old(knn.xs) && knn.ys == old(knn.ys)
        && spawner == old(spawner)
      ensures spawned.Some? ==>
        && spawned.value in old(OpenLanes(now))
        && spawned.value == FinalLane(old(OpenLanes(now)), old(spawner.lastLaneSpawnedInPair), pick, prediction, adopt)
        && obstacles == old(obstacles) + [Obstacle(spawned.value, SPAWN_Y, old(spawner.obstacleSpeed))]
        && (prediction.Some? ==> 0 <= prediction.value < lanes)
        && spawner == old(spawner).AfterSpawn(lanes, hard, spawned.value, now, prediction)
      ensures spawned.Some? && old(spawner.lastObstacleSpawnTime).None? ==>
        && prediction.None?
        && knn.xs == old(knn.xs) && knn.ys == old(knn.ys)
      ensures spawned.Some? && old(spawner.lastObstacleSpawnTime).Some? ==>
        && IsPrediction(old(knn.xs), old(knn.ys), K_NEIGHBORS, old(ContextFeatures(now)), prediction)
        && knn.xs == BoundedAppend(old(knn.xs), old(ContextFeatures(now)), MEMORY_LIMIT)
        && knn.ys == BoundedAppend(old(knn.ys), spawned.value, MEMORY_LIMIT)
    {
      spawned, prediction := None, None;
      if |obstacles| < MAX_SIMULTANEOUS_OBSTACLES {
        var candidates := CandidateLanes(now);
        if candidates != [] {
          var lane;
          lane, prediction := SpawnInto(now, candidates, pick, adopt);
          spawned := Some(lane);
        }
      }
    }

    /**
     * The spawn block of a frame. When the interval has elapsed the spawn
     * clock restarts, whether or not an obstacle appears.
     */
    method SpawnStep(now: int, pick: nat, adopt: bool) returns (spawned: Option<int>, prediction: Option<int>)
      requires Valid() && spawner.currentPair.Some? && spawner.pairSpawnsLeft > 0
      modifies this`obstacles, this`spawner, knn
      ensures Valid()
      ensures spawned.Some? <==> old(SpawnAllowed(now))
      ensures spawner.lastSpawnTime == if old(Due(now)) then now else old(spawner.lastSpawnTime)
      ensures spawned.None? ==>
        && prediction.None?
        && obstacles == old(obstacles) && knn.xs == old(knn.xs) && knn.ys == old(knn.ys)
        && spawner == old(spawner).(lastSpawnTime := spawner.lastSpawnTime)
      ensures spawned.Some? ==>
        && spawned.value in old(OpenLanes(now))
        && spawned.value == FinalLane(old(OpenLanes(now)), old(spawner.lastLaneSpawnedInPair), pick, prediction, adopt)
        && obstacles == old(obstacles) + [Obstacle(spawned.value, SPAWN_Y, old(spawner.obstacleSpeed))]
        && (prediction.Some? ==> 0 <= prediction.value < lanes)
        && spawner == old(spawner).AfterSpawn(lanes, hard, spawned.value, now, prediction).(lastSpawnTime := now)
      ensures spawned.Some? && old(spawner.lastObstacleSpawnTime).None? ==>
        && prediction.None?
        && knn.xs == old(knn.xs) && knn.ys == old(knn.ys)
      ensures spawned.Some? && old(spawner.lastObstacleSpawnTime).Some? ==>
        && IsPrediction(old(knn.xs), old(knn.ys), K_NEIGHBORS, old(ContextFeatures(now)), prediction)
        && knn.xs == BoundedAppend(old(knn.xs), old(ContextFeatures(now)), MEMORY_LIMIT)
        && knn.ys == BoundedAppend(old(knn.ys), spawned.value, MEMORY_LIMIT)
      ensures SpawnedFrom(old(spawner), old(obstacles), old(knn.xs), old(knn.ys), now, pick, adopt, spawned, prediction)
    {
      spawned, prediction := None, None;
      if !Due(now) {
        return;
      }
      spawned, prediction := SpawnIfRoom(now, pick, adopt);
      ClockFree(spawner, lanes, hard, now);
      spawner := spawner.(lastSpawnTime := now);
    }

    /**
     * The advance step of a frame: every obstacle falls once, those that
     * have gone past the bottom are removed, and each of them scores a point.
     */
    method AdvanceObstacles() returns (passed: nat)
      requires ObstaclesValid()
      modifies this`obstacles, this`score
      ensures ObstaclesValid()
      ensures obstacles == Survivors(old(obstacles))
      ensures passed == PassedCount(old(obstacles)) && score == old(score) + passed
    {
      var snapshot := obstacles;
      var live;
      live, passed := AdvanceAll(snapshot);
      obstacles := live;
      score := score + passed;
      SurvivorsStayInLanes(snapshot, lanes);
    }

    /** `any(player.rect.colliderect(ob.rect) for ob in obstacles)`. */
    predicate Crashed()
      reads this, player
      requires MIN_LANES <= lanes <= MAX_LANES
    {
      exists i :: 0 <= i < |obstacles| && Collide(player.Rect(), ObstacleRect(lanes, obstacles[i]))
    }

    /**
     * Once the player's car has arrived in its lane, only an obstacle in that
     * same lane can hit it.
     */
    lemma OnlyOwnLaneHitsSettledCar(i: int)
      requires Valid() && player.logicalLane == player.targetLane
      requires 0 <= i < |obstacles|
      requires Collide(player.Rect(), ObstacleRect(lanes, obstacles[i]))
      ensures obstacles[i].lane == player.targetLane
    {
      var x := SlotX(lanes, player.targetLane, PlayerWidth(lanes));
      assert Trunc(x as real) == x;
      if obstacles[i].lane != player.targetLane {
        SettledCarsInOtherLanesDoNotCollide(lanes, player.targetLane, obstacles[i]);
      }
    }

    /**
     * The frame's steering keys, handled in the order they were pressed: a
     * car more than two pixels from its target ignores them all, and any new
     * target is the clamped neighbour that one of the keys asked for.
     */
    method Steer(steering: seq<int>)
      requires Valid()
      modifies player`targetLane, player`targetX
      ensures Valid()
      ensures Abs(old(player.targetX) - player.currentX) > 2.0 ==>
        player.targetLane == old(player.targetLane) && player.targetX == old(player.targetX)
      ensures player.targetLane == old(player.targetLane)
        || exists i :: 0 <= i < |steering| && player.targetLane == ClampLane(lanes, player.logicalLane + steering[i])
      ensures player.targetLane
        == SteeredLane(lanes, player.logicalLane, player.currentX, old(player.targetLane), steering)
    {
      for i := 0 to |steering|
        invariant PlayerValid()
        invariant SteeredLane(lanes, player.logicalLane, player.currentX, old(player.targetLane), steering)
          == SteeredLane(lanes, player.logicalLane, player.currentX, player.targetLane, steering[i..])
      {
        assert steering[i..][1..] == steering[i + 1..];
        player.RequestLaneChange(steering[i]);
      }
      assert steering[|steering|..] == [];
      SteeredLaneFromKeys(lanes, player.logicalLane, player.currentX, old(player.targetLane), steering);
      if Abs(old(player.targetX) - player.currentX) > 2.0 {
        SteeringIgnoredWhileMoving(lanes, player.logicalLane, player.currentX, old(player.targetLane), steering);
      }
    }

    /** The dashboard colour poll: a colour that parses and differs is adopted. */
    method PollColor(polled: Option<string>)
      requires Valid()
      modifies player`color
      ensures Valid()
      ensures player.color == ColorAfterPoll(old(player.color), polled)
    {
      if polled.Some? && polled.value != "" {
        var rgb := HexToRgb(polled.value);
        if rgb.Some? && rgb.value != player.color {
          player.UpdateColor(rgb);
        }
      }
    }

    /**
     * What the spawn block leaves in the scheduler and the predictor, from
     * the scheduler `before`, the live obstacles `obstaclesBefore` and the
     * predictor's history `xsBefore`/`ysBefore`: an obstacle appears in lane
     * `spawned` exactly when the spawn is due, fewer than six obstacles are
     * live and a lane of the pair is open; the spawn clock restarts whenever
     * the spawn is due; the lane is `FinalLane` of the open lanes; and the
     * scheduler and the predictor move on as that spawn demands.
     */
    ghost predicate SpawnedFrom(before: Spawner, obstaclesBefore: seq<Obstacle>,
                                xsBefore: seq<Features>, ysBefore: seq<int>,
                                now: int, pick: nat, adopt: bool, spawned: Option<int>, prediction: Option<int>)
      requires MIN_LANES <= lanes <= MAX_LANES && before.Valid(lanes, hard)
      requires before.currentPair.Some? && before.pairSpawnsLeft > 0
      reads this`spawner, this`knn, knn
    {
      var open := OpenLanesIn(obstaclesBefore, before.laneLastSpawnTime, before.currentPair.value, now);
      && (spawned.Some? <==> before.Due(now) && |obstaclesBefore| < MAX_SIMULTANEOUS_OBSTACLES && open != [])
      && spawner.lastSpawnTime == (if before.Due(now) then now else before.lastSpawnTime)
      && (spawned.None? ==>
            && prediction.None?
            && knn.xs == xsBefore && knn.ys == ysBefore
            && spawner == before.(lastSpawnTime := spawner.lastSpawnTime))
      && (spawned.Some? ==>
            && spawned.value in open
            && spawned.value == FinalLane(open, before.lastLaneSpawnedInPair, pick, prediction, adopt)
            && (prediction.Some? ==> 0 <= prediction.value < lanes)
            && spawner == before.AfterSpawn(lanes, hard, spawned.value, now, prediction).(lastSpawnTime := now))
      && (spawned.Some? && before.lastObstacleSpawnTime.None? ==>
            && prediction.None?
            && knn.xs == xsBefore && knn.ys == ysBefore)
      && (spawned.Some? && before.lastObstacleSpawnTime.Some? ==>
            && |xsBefore| == |ysBefore|
            && IsPrediction(xsBefore, ysBefore, K_NEIGHBORS, before.Context(lanes, now), prediction)
            && knn.xs == BoundedAppend(xsBefore, before.Context(lanes, now), MEMORY_LIMIT)
            && knn.ys == BoundedAppend(ysBefore, spawned.value, MEMORY_LIMIT))
    }

    /**
     * The spawn logic of a frame: the pair rotation followed by the spawn
     * block, which appends at most one obstacle and scores nothing.
     */
    method Spawn(now: int, pairPick: nat, lanePick: nat, adopt: bool)
      returns (spawned: Option<int>, prediction: Option<int>, ghost rotated: Spawner)
      requires Valid()
      modifies this`spawner, this`obstacles, knn
      ensures Valid()
      ensures spawned.Some? ==>
        old(Due(now)) && old(|obstacles|) < MAX_SIMULTANEOUS_OBSTACLES && 0 <= spawned.value < lanes
      ensures obstacles == Entered(old(obstacles), spawned, old(spawner.obstacleSpeed))
      ensures rotated == old(spawner).Rotated(lanes, hard, pairPick)
      ensures SpawnedFrom(rotated, old(obstacles), old(knn.xs), old(knn.ys), now, lanePick, adopt, spawned, prediction)
    {
      RotatePair(pairPick);
      rotated := spawner;
      spawned, prediction := SpawnStep(now, lanePick, adopt);
    }

    /**
     * The world's part of a frame: the pair rotation, the spawn block, the
     * advance loop and the player's slide.
     */
    method Advance(now: int, pairPick: nat, lanePick: nat, adopt: bool)
      returns (spawned: Option<int>, ghost prediction: Option<int>, ghost rotated: Spawner)
      requires Valid()
      modifies this`spawner, this`obstacles, this`score, knn, player`currentX, player`logicalLane
      ensures Valid()
      ensures spawned.Some? ==>
        old(Due(now)) && old(|obstacles|) < MAX_SIMULTANEOUS_OBSTACLES && 0 <= spawned.value < lanes
      ensures rotated == old(spawner).Rotated(lanes, hard, pairPick)
      ensures SpawnedFrom(rotated, old(obstacles), old(knn.xs), old(knn.ys), now, lanePick, adopt, spawned, prediction)
      ensures var entered := Entered(old(obstacles), spawned, old(spawner.obstacleSpeed));
        && obstacles == Survivors(entered)
        && score == old(score) + PassedCount(entered)
      ensures player.currentX == Glide(old(player.currentX), player.targetX)
      ensures player.logicalLane ==
        if Abs(player.targetX - old(player.currentX)) < 0.5 then player.targetLane else old(player.logicalLane)
    {
      spawned, prediction, rotated := Spawn(now, pairPick, lanePick, adopt);
      var passed := AdvanceObstacles();
      player.Update();
    }

    /**
     * One playing frame of `main()`: the steering keys of the frame, the
     * dashboard colour poll, the pair rotation, the spawn block, the advance
     * loop, the player's slide and the crash test. A crash reports the run's
     * score and lane count and starts a new run at `restartNow` with the
     * same car colour. The random draws are `pairPick`, `lanePick` and
     * `adopt`.
     */
    method Tick(now: int, steering: seq<int>, polled: Option<string>,
                pairPick: nat, lanePick: nat, adopt: bool, restartNow: int)
      returns (report: Option<ScoreReport>, ghost spawned: Option<int>, ghost prediction: Option<int>,
               ghost rotated: Spawner)
      requires Valid()
      modifies this, player, knn
      ensures Valid()
      ensures player.color == ColorAfterPoll(old(player.color), polled)
      ensures spawned.Some? ==>
        old(Due(now)) && old(|obstacles|) < MAX_SIMULTANEOUS_OBSTACLES && 0 <= spawned.value < lanes
      ensures
        var lane := SteeredLane(lanes, old(player.logicalLane), old(player.currentX), old(player.targetLane), steering);
        var x := Glide(old(player.currentX), SlotX(lanes, lane, PlayerWidth(lanes)) as real);
        var car := Rect(Trunc(x), PLAYER_Y, PlayerWidth(lanes), PLAYER_HEIGHT);
        var entered := Entered(old(obstacles), spawned, old(spawner.obstacleSpeed));
        var survivors := Survivors(entered);
        && (report.Some? <==> exists i :: 0 <= i < |survivors| && Collide(car, ObstacleRect(lanes, survivors[i])))
        && (report.Some? ==>
              report.value == ScoreReport(old(score) + PassedCount(entered), lanes) && AtRunStart(restartNow))
        && (report.None? ==>
              && obstacles == survivors && score == old(score) + PassedCount(entered)
              && player == old(player) && knn == old(knn)
              && player.targetLane == lane && player.currentX == x
              && player.logicalLane == (if Abs(SlotX(lanes, lane, PlayerWidth(lanes)) as real - old(player.currentX)) < 0.5
                                        then lane else old(player.logicalLane)))
      ensures rotated == old(spawner).Rotated(lanes, hard, pairPick)
      ensures report.None? ==>
        SpawnedFrom(rotated, old(obstacles), old(knn.xs), old(knn.ys), now, lanePick, adopt, spawned, prediction)
    {
      Steer(steering);
      PollColor(polled);
      spawned, prediction, rotated := Advance(now, pairPick, lanePick, adopt);
      if Crashed() {
        report := Some(ScoreReport(score, lanes));
        Reset(restartNow);
      } else {
        report := None;
      }
    }
  }
}
