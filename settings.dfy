/**
 * The fixed settings of the game process (main.py, "Settings" block), and the
 * lane-count clamp that the game and the dashboard both apply to a requested
 * lane count.
 */
module Settings {

  const WIDTH := 480
  const HEIGHT := 640
  const PLAYER_Y := HEIGHT - 140

  const PLAYER_HEIGHT := 56
  const PLAYER_WIDTH_OFFSET := 24
  const OBSTACLE_HEIGHT := 52
  const OBSTACLE_WIDTH_OFFSET := 30

  const SPAWN_INTERVAL_START_MS := 1700

  /** Floor of the spawn interval (milliseconds). */
  function MinSpawnIntervalMs(hard: bool): int {
    if hard then 450 else 600
  }

  /** Amount the spawn interval shrinks per successful spawn (milliseconds). */
  function SpawnDecreaseMs(hard: bool): int {
    if hard then 6 else 5
  }

  function ObstacleSpeedStart(hard: bool): real {
    if hard then 1.9 else 1.6
  }

  function ObstacleSpeedIncrement(hard: bool): real {
    if hard then 0.008 else 0.007
  }

  /** An obstacle above this vertical position blocks its lane for spawning. */
  const MIN_VERTICAL_GAP: real := 600.0
  /** Minimum time between two spawns in one lane (milliseconds). */
  const MIN_SPAWN_TIME_GAP_MS := 2000

  const PAIR_DURATION_SPAWNS := 4
  const MAX_SIMULTANEOUS_OBSTACLES := 6

  const K_NEIGHBORS := 3
  /** Capacity of the predictor's training history (`memory_limit` in `main()`). */
  const MEMORY_LIMIT := 900

  /** Vertical position at which a new obstacle appears. */
  const SPAWN_Y: real := -160.0
  /** An obstacle whose position exceeds this has been passed and is removed. */
  const REMOVE_BELOW_Y: real := (HEIGHT + 80) as real
  /** Per-lane last-spawn time of a lane that never received an obstacle. */
  const NEVER_SPAWNED := -99999

  const SLIDE_SPEED: real := 22.0

  const MIN_LANES := 2
  const MAX_LANES := 6

  /** `max(2, min(6, n))`: the lane count actually used for a requested `n`. */
  function ClampLanes(n: int): (lanes: int)
    ensures MIN_LANES <= lanes <= MAX_LANES
    ensures MIN_LANES <= n <= MAX_LANES ==> lanes == n
    ensures n < MIN_LANES ==> lanes == MIN_LANES
    ensures n > MAX_LANES ==> lanes == MAX_LANES
  {
    if n < MIN_LANES then MIN_LANES else if n > MAX_LANES then MAX_LANES else n
  }

  /** `WIDTH // LANES`. */
  function LaneWidth(lanes: int): int
    requires MIN_LANES <= lanes <= MAX_LANES
  {
    WIDTH / lanes
  }
}
