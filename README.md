# Asphalt Rush: a verified model of the game loop and its dashboard

This project models the two cooperating programs of the Asphalt Rush lane-dodging
game in Dafny, and proves properties of that model.

- **The game process** (`main.py`). A car drives on 2 to 6 lanes while obstacle
  cars fall towards it. Obstacles are spawned into a rotating pair of
  neighbouring lanes. A tiny k-nearest-neighbour predictor (`TinyKNN`) learns
  which lane comes next, and the spawner sometimes adopts its guess. Spawning
  speeds up along a difficulty ramp. Obstacles that leave the screen score a
  point each. A crash reports the score, and the run restarts with the same
  car colour.
- **The dashboard** (`app.py`). A small web control plane launches and stops
  the game process and detects when it exits. It receives the final score and
  keeps a summary of the last run. It stores the selected car colour and the
  theme, and keeps an in-memory log capped at 2000 entries.

## Modules

| module | file | models |
|---|---|---|
| `Wrappers` | `wrappers.dfy` | `Option` |
| `Settings` | `settings.dfy` | the game's constants, the lane clamp and lane width |
| `Geometry` | `geometry.dfy` | `int()` truncation of a position, and the rectangle overlap test of `colliderect` |
| `Colors` | `colors.dfy` | `hex_to_rgb` |
| `Fifo` | `fifo.dfy` | append-then-drop-oldest, shared by the log ring and the predictor's history |
| `Knn` | `knn.dfy` | `TinyKNN` as a class, and a declarative description of what `predict` answers |
| `Actors` | `actors.dfy` | `Player` as a class, `Obstacle` as a value, and the advance-and-score pass |
| `Scheduler` | `scheduler.dfy` | the pure decisions of the spawn block: pair, lane, predictor features, difficulty ramp |
| `GameState` | `game.dfy` | the run-scoped locals of `main()` as a `Game` class, with one method per step of a frame |
| `Dashboard` | `dashboard.dfy` | the module-level state of `app.py` as a `Dashboard` class, with one method per handler |

### How the model represents the source

- Randomness is passed in explicitly.
  - `random.choice(xs)` is `xs[pick % |xs|]`, with `pick` an argument.
  - The adoption test `random.random() < 0.45` is a boolean argument, `adopt`.
- Clocks are parameters: `now` in milliseconds for the game, and a `real` time
  for the dashboard.
- The dashboard's child process is an abstract handle.
  - Whether it is alive is a boolean input.
  - The outcome of `Popen` is an input of type `LaunchOutcome`.
  - The poll at which a stopped child exits is a natural-number input.
- For `SubmitScore`, `ApiSetColor` and `ApiSetTheme`, a request body the handler
  cannot parse is `None`. `ApiStart` takes the requested lanes and mode as
  arguments, and has no body input.
- The locals of the spawn block travel together as one record, `Spawner`. The
  game object replaces it as a whole at every step.
- The predictor's stable sort by distance is described by ranks. An example's
  position after sorting is the number of examples that are closer, or equally
  close and earlier in the history. The first `min(k, n)` examples after
  sorting are exactly those of rank below `min(k, n)`. Squared distances stand
  in for distances, since they have the same order.

## Model

| member | source | states |
|---|---|---|
| Settings.ClampLanes | main.py:42 | The lane count lies in [2, 6]. It is the requested count when that is in range, and the nearer bound otherwise. |
| Geometry.Trunc | main.py:287 | `int()` of a position truncates towards zero: it is the whole number within one unit of the value, on the value's side of zero. |
| Geometry.CollideIffSharedPixel | main.py:618 | Two rectangles collide exactly when some pixel lies inside both. |
| Geometry.CollideSymmetric | main.py:618 | The collision test does not depend on the order of its arguments. |
| Colors.HexToRgb | main.py:23-33 | A parsed colour came from 3 or 6 characters after the leading `#`s. Each component of a colour the model parses is in [0, 255]. |
| Colors.HexToRgbDefinedIff | main.py:23-33 | The parse succeeds exactly for non-empty input whose part after the leading `#`s is 3 or 6 hex digits. |
| Colors.HexRoundTrip | main.py:23-33 | Writing any byte colour as `#rrggbb` and parsing it back gives the colour. |
| Colors.ShortFormScales | main.py:26-27 | A three-digit colour scales each digit by 17. |
| Colors.ShortFormMatchesLongForm | main.py:26-27 | `#RGB` and its doubled form `#RRGGBB` parse to the same result. |
| Fifo.BoundedAppend | app.py:41-43 | After an append with a cap, the new item is last and the length never exceeds the cap. The result is the old contents plus the item, less exactly the oldest entry when the cap would be exceeded. |
| Fifo.BoundedAppendFrom | main.py:588-590 | Every item after a bounded append was already there or is the appended item. |
| Knn.Distances | main.py:91-94 | There is one squared distance per training example, in history order. |
| Knn.DistancesTo | main.py:91-94 | The distance loop computes exactly `Distances`. |
| Knn.RankOf | main.py:95 | The counting loop computes an example's position in the stable sort by distance. |
| Knn.RankMonotone | main.py:95 | An example that precedes another in the sort has a smaller rank. |
| Knn.CloserIsNearest | main.py:95-96 | An example strictly closer than one of the `k` nearest is itself among the `k` nearest. |
| Knn.FirstAfterSort | main.py:95 | A non-empty history has an example of rank 0, the first after sorting. |
| Knn.TallyVotes | main.py:96-99 | The vote loop builds a map holding exactly the labels with at least one vote among the `k` nearest, each with its vote count. |
| Knn.MostVoted | main.py:100 | The label picked has the most votes, and is the smallest label among those with equally many votes. |
| Knn.VoteHasVoter | main.py:98-100 | A label with a vote is the label of one of the `k` nearest examples. |
| Knn.PredictionUnique | main.py:89-101 | At most one answer fits the description of `predict`: no answer on an empty history, otherwise a voter's label with the most votes, the smallest on a tie. |
| Knn.TinyKnn.constructor | main.py:83-86 | A new predictor has an empty history. |
| Knn.TinyKnn.AddExample | main.py:87-88 | The example and its label are appended at the end of the history. |
| Knn.TinyKnn.EvictOldest | main.py:589-590 | The oldest example and its label leave the history, and nothing else changes. |
| Knn.TinyKnn.Predict | main.py:89-101 | The answer meets `IsPrediction`: `None` exactly on an empty history, otherwise the label of one of the `min(k, n)` nearest, with the most votes and the smallest label on a tie. |
| Actors.SlideStep | main.py:247-248 | One slide step moves towards the target without passing it, lands on the target when within the step size, and strictly reduces the distance. |
| Actors.ClampLane | main.py:235 | The lane is clamped into [0, lanes-1], and a lane already in range is kept. |
| Actors.Player.constructor | main.py:193-199 | A new car rests in the middle lane `lanes // 2`, at that lane's slot. |
| Actors.Player.SlotsOrdered | main.py:239 | Every lane's slot lies between the slots of the outermost lanes. |
| Actors.Player.RequestLaneChange | main.py:232-239 | This is a no-op while the car is more than 2 px from its target. Otherwise it retargets to the clamped neighbouring lane, unless that is the current logical lane. The target lane always stays on the road. |
| Actors.Glide | main.py:241-248 | The car's next position: on the target when within 0.5 px, and strictly closer to it otherwise. |
| Actors.Player.Update | main.py:241-248 | The position becomes `Glide` of the old position and the target. Within 0.5 px the car snaps onto its target and only then takes the target lane as its logical lane. Farther away it eases towards the target, never passing it, and the logical lane is unchanged. |
| Actors.SteeringIgnoredWhileMoving | main.py:233-234 | A car more than 2 px from its target's slot keeps its target lane whatever keys are pressed. |
| Actors.SlotsApart | main.py:239 | The slots of two different lanes are more than 2 px apart. |
| Actors.SteeredLaneFromKeys | main.py:235-239 | After any keys, the target lane is the old target or the clamped neighbour asked for by one of the keys. |
| Actors.FirstRetargetingKeyWins | main.py:232-239 | A car resting in its lane changes target at most once per frame. The target is the lane asked for by the first key that asks for another lane, or the logical lane when no key does. |
| Actors.Player.UpdateColor | main.py:222-224 | A colour that is present replaces the car's colour, and an absent one leaves it. |
| Actors.Survivors | main.py:610-613 | The obstacles kept after a tick are at most as many as before, and none of them is past the bottom edge. |
| Actors.PassedCount | main.py:612-614 | At most every obstacle can pass in one tick. |
| Actors.AdvanceAll | main.py:610-614 | The in-place advance-and-remove loop leaves exactly the survivors, in order, and counts exactly the obstacles that passed. |
| Actors.SurvivorsPlusPassed | main.py:610-614 | The survivors and the passed obstacles together account for every obstacle. |
| Actors.SurvivorsOfConcat | main.py:610-614 | Advancing is done obstacle by obstacle: survivors and the count distribute over concatenation, so the order is kept. |
| Actors.SurvivorsCameFromInput | main.py:610-613 | Every survivor is some input obstacle moved one step, and it is not past the edge. |
| Actors.SurvivorIff | main.py:611-613 | An advanced obstacle survives exactly when it is not past `HEIGHT + 80`. |
| Actors.SurvivorsStayInLanes | main.py:610-613 | Advancing keeps every obstacle in its lane. |
| Actors.SettledCarsInOtherLanesDoNotCollide | main.py:618 | A car that sits in its lane does not collide with an obstacle in another lane. |
| Scheduler.Choice | main.py:566 | A random choice picks a member of the list. |
| Scheduler.Pairs | main.py:546 | There are `lanes - 1` pairs, and pair `i` starts at lane `i`. |
| Scheduler.ChoosePair | main.py:546-547 | The chosen pair is `(i, i+1)` with `0 <= i < lanes-1`. |
| Scheduler.Others | main.py:563 | The filtered list holds exactly the members other than `v`, with the first of them first. |
| Scheduler.ChooseLane | main.py:562-566 | The lane is an open lane. When the lane last used in the pair is open again and another lane is open too, a different lane is taken. |
| Scheduler.FinalLane | main.py:573-574 | The lane is an open lane. It is the predicted lane exactly when the prediction is open and adopted, and the alternating or random choice otherwise. |
| Scheduler.SpawnFeatures | main.py:571 | Each of the predictor's three features lies in [0, 1] for in-range inputs. |
| Scheduler.NextInterval | main.py:603-604 | One ramp step never increases the interval, never takes it below the floor, and strictly shortens it while it is above the floor. |
| Scheduler.RampClosedForm | main.py:603-605 | After `n` spawns the interval is `max(floor, 1700 - n * decrease)` and the speed is `start + n * increment`. |
| Scheduler.RampMonotone | main.py:603-605 | Over a run the interval never grows and stays within [floor, 1700], and the speed never falls. |
| GameState.ColorAfterPoll | main.py:533-537 | An answered poll that parses gives the new colour. No answer, or one that does not parse, keeps the old colour. |
| GameState.NeverSpawnedTimes | main.py:471 | Every lane starts with the "never spawned" time -99999. |
| GameState.Spawner.AfterSpawn | main.py:578-605 | After a spawn the state stays valid and the pair is kept. The lane's time, the last lane, the obstacle count and the pair budget are updated. The interval takes one ramp step, the speed rises by exactly one increment, and the prediction counters change only when a prediction was made. |
| GameState.StartSpawner | main.py:644-657 | A new run has no pair, no spawns, no predictions, the start interval and speed, and its spawn clock at `now`. |
| GameState.ClockFree | main.py:607 | Moving the spawn clock keeps the scheduler state valid. |
| GameState.Game.constructor | main.py:449-471 | A new game clamps the lane count and starts a run. The car takes the command-line colour when it parses, and (15, 119, 110) otherwise. |
| GameState.Game.Reset | main.py:640-657 | Every run-scoped value returns to its start value, with a new car and a new predictor. The car colour carries over. |
| GameState.Spawner.Rotated | main.py:545-549 | The scheduler after the pair rotation: when the pair is used up or missing, the pair `(i, i+1)` the draw picks, with a budget of 4 and no last lane. Otherwise the scheduler is unchanged. No other field changes, and the invariant is kept. |
| GameState.Game.RotatePair | main.py:545-549 | The scheduler becomes `Rotated` of the old one. When the pair is used up or missing, a new pair `(i, i+1)` gets a fresh budget of 4 and no last lane, and nothing else changes. Otherwise the state is unchanged. |
| GameState.OpenLanesIn | main.py:555-560 | The open lanes of a pair are exactly its lanes with no obstacle above the vertical gap and a last spawn at least 2000 ms ago. |
| GameState.Game.OpenLanes | main.py:555-560 | The candidates are exactly the pair's lanes with no obstacle above the vertical gap and a last spawn at least 2000 ms ago. |
| GameState.Game.IsBlockedNearTop | main.py:557 | The loop finds whether some obstacle in the lane is above the vertical gap. |
| GameState.Game.CandidateLanes | main.py:554-560 | The candidate loop builds exactly the open lanes of the pair, in pair order. |
| GameState.Game.Learn | main.py:585-590 | The example is appended to the history and the oldest is evicted beyond 900. The history stays within 900 examples, all labelled with real lanes. |
| GameState.Game.ChooseSpawnLane | main.py:562-575 | The lane is `FinalLane` of the candidates. The predictor is asked only when there was a previous obstacle, and its answer meets `IsPrediction`. |
| GameState.Game.SpawnInto | main.py:562-605 | The obstacle enters an open lane of the pair at the top, with the current speed. The scheduler state becomes `AfterSpawn`. The predictor learns the lane exactly when it had a context. |
| GameState.Game.RecordSpawn | main.py:577-603 | After a spawn into a lane of the pair, the obstacle is appended at the top with the speed before the ramp step, and the scheduler becomes `AfterSpawn`. The predictor learns the lane with the context before the spawn exactly when there was a previous obstacle, and is unchanged otherwise. |
| GameState.Game.AppendObstacle | main.py:578-579 | The obstacle is appended and the obstacle invariant is kept. |
| GameState.Game.SpawnIfRoom | main.py:553-605 | A spawn happens exactly when fewer than 6 obstacles are live and a lane of the pair is open. Without a spawn nothing changes. |
| GameState.Game.SpawnStep | main.py:552-607 | A spawn happens exactly when it is due, there is room and a lane is open. The spawn clock resets whenever the interval has elapsed, even with no spawn. Without a spawn only the clock changes. The whole outcome is also stated as `SpawnedFrom` the old scheduler, obstacles and history. |
| GameState.Game.AdvanceObstacles | main.py:610-614 | The obstacles become exactly the survivors, in order, and the score rises by exactly the number that passed. |
| GameState.Game.OnlyOwnLaneHitsSettledCar | main.py:618 | A car that has settled in its lane can be hit only by an obstacle in that lane. |
| GameState.Game.Steer | main.py:518-521 | The target lane becomes `SteeredLane`: the frame's keys applied from left to right as `request_lane_change` handles each. Keys are ignored while the car is more than 2 px from its target, and any new target lane is the clamped neighbour asked for by one of the keys. |
| GameState.Game.PollColor | main.py:529-537 | The car colour becomes `ColorAfterPoll` of the old colour and the poll's answer. |
| GameState.Game.Spawn | main.py:545-607 | The scheduler is first rotated (`Rotated`). Then `SpawnedFrom` holds from the rotated scheduler and the old obstacles and history: an obstacle appears exactly when the spawn is due, fewer than 6 are live and a lane of the rotated pair is open, in `FinalLane` of the open lanes. The spawn clock restarts whenever the spawn is due, and the scheduler and predictor move on as the spawn demands. The obstacle is appended at the top with the current speed. |
| GameState.Game.Advance | main.py:545-616 | The spawn logic does what `Spawn` states. Then the obstacles become the survivors of the old obstacles plus the spawned one, and the score rises by exactly the number of those that passed. The car moves to `Glide` of its position and its target, and takes the target lane as its logical lane exactly when it snaps. Every run invariant is kept. |
| GameState.Game.Tick | main.py:518-657 | A crash is reported exactly when the car's rectangle collides with one of the advanced obstacles. The car's rectangle is taken at `Glide` of its old position towards the slot of the `SteeredLane` target. The obstacles are the survivors of the old ones plus the spawned one. A crash reports the score plus the obstacles that passed this frame, and the lane count, and starts a new run with every run-scoped value reset. Without a crash, the obstacles, score, target lane, position and logical lane are those of the frame, and the scheduler and predictor are as `SpawnedFrom` the rotated scheduler states. The colour poll is applied in both cases. |
| Dashboard.LastN | app.py:31 | The last `n` entries, in order. |
| Dashboard.LaunchArgs | app.py:421-423 | The command line starts with the interpreter, the script, `--lanes N --caller dashboard`. It contains `--hard` exactly in hard mode, and ends with `--car-color <hex>` exactly when a colour is selected. |
| Dashboard.StampEnd | app.py:397-398 | Only a run with a start time and no end time gets `now` as its end and the whole seconds elapsed as its duration. Score, lanes and start time never change. |
| Dashboard.StampEndOnce | app.py:458-459 | A run is stamped at most once: a second stamp changes nothing. |
| Dashboard.StampedDurationNonNegative | app.py:458-459 | A run that ends no earlier than it started has a non-negative duration. |
| Dashboard.LaunchCount | app.py:492 | The launch counter counts at most every entry. |
| Dashboard.ScoredRuns | app.py:493 | The scored-runs counter counts at most every entry. |
| Dashboard.CountsOfConcat | app.py:492-493 | Both counters add up over a concatenation of logs. |
| Dashboard.LaunchCountOfOne | app.py:492-493 | A single entry is counted exactly when its message mentions "launch" (or starts with "score submitted"). |
| Dashboard.LaunchingCounted | app.py:425 | The "Launching game" entry counts as a launch. |
| Dashboard.LaunchedCounted | app.py:433 | The "Game launched" entry also counts as a launch. |
| Dashboard.LaunchFailureCounted | app.py:436 | The "Failed to launch game" entry also counts as a launch. |
| Dashboard.ScoreMessageCounted | app.py:474 | The "Score submitted by game" entry counts as a scored run. |
| Dashboard.UnparsableColourAccepted | app.py:511 | "#zzz" passes the colour check, but the game cannot parse it. |
| Dashboard.DefaultSelectionNearGameDefault | app.py:18 | The default selection "#0f766e" is (15, 118, 110). The game's own default is (15, 119, 110). |
| Dashboard.AwaitExit | app.py:446-455 | The stop loop sleeps once per poll that still finds the child alive, at most 10 times. The child is killed exactly when it outlives all the polls. |
| Dashboard.Dashboard.constructor | app.py:14-35 | At start-up: no child, an empty last run, the default colour and the green theme. The last 300 persisted entries are kept (or a warning when the file does not parse), followed by the start entry. |
| Dashboard.Dashboard.AppendLog | app.py:37-43 | The entry goes last, and the log is capped at 2000 by dropping the oldest entry. |
| Dashboard.Dashboard.ApiRuntime | app.py:387-401 | It reports running, with the pid, exactly when a tracked child is alive, and then nothing changes. An exited child is logged and forgotten, and its run stamped as ended once. |
| Dashboard.Dashboard.ApiStart | app.py:404-437 | A missing script is refused and logged. A live child is refused with nothing changed, and a dead one is cleared first. Success records the child, its pid and start time, and restarts the last run with the clamped lanes. Failure leaves the runtime as it was. Each outcome's log entries are stated. |
| Dashboard.Dashboard.ApiStop | app.py:440-464 | It is refused with nothing changed when no child is tracked. Otherwise all four runtime fields are cleared, whether or not a kill was needed, the run is stamped once, and two entries are logged. |
| Dashboard.Dashboard.SubmitScore | app.py:467-478 | An unparsable body is refused with the last run unchanged. Otherwise score, lanes and end time are overwritten, and the duration is recomputed only when there is a start time. |
| Dashboard.Dashboard.ApiLastRun | app.py:481-488 | It returns the last run unchanged. |
| Dashboard.Dashboard.ApiLogs | app.py:491-494 | It returns the last 400 entries in order, and both counters over the whole log. |
| Dashboard.Dashboard.ApiClearLogs | app.py:497-498 | The log afterwards holds only the entry recording that it was cleared. |
| Dashboard.Dashboard.ApiColor | app.py:501-502 | It returns the selected colour, which always has the accepted shape. |
| Dashboard.Dashboard.ApiSetColor | app.py:505-517 | A colour is accepted exactly when its hex is a string starting with `#` of length 4 or 7, and then the selection becomes exactly that hex and name. A missing or falsy hex, and any other shape, are refused with the selection and the log unchanged. An unparsable body is refused, and the log gets the "Failed to set color" error entry. |
| Dashboard.Dashboard.ApiSetTheme | app.py:522-532 | The theme becomes "blue" only when "blue" is asked for, and "green" otherwise, and "Theme changed" is logged. An unparsable body leaves the theme, and the log gets the "Failed to set theme" error entry. |
| Dashboard.StartThenSubmit | app.py:404-478 | Launching a three-lane game and then submitting a score of 12 gives a last run with score 12, 3 lanes, and the whole seconds between launch and submission. |
| Dashboard.PushThenPushInvalid | app.py:505-517 | After pushing "#0f766e" named "Teal Dark", a push of "not-a-color" is refused and the colour read back is exactly the first document. |

## Where the code and its documentation differ

The model follows the code in each of these cases.

- **Vote tie-break.**
  - Documented: a tie in the predictor's vote goes to the label of the nearest neighbour.
  - Code: `max(..., key=(count, -label))` returns the smallest label (main.py:100).
  - See `Knn.MostVoted`.
- **Colour validation.**
  - Documented: a pushed colour is validated as a well-formed hex triple or sextet.
  - Code: only the leading `#` and the length 4 or 7 are checked (app.py:511). "#zzz" is accepted, and the game then keeps its previous colour.
  - See `Dashboard.UnparsableColourAccepted`.
- **Default colour.**
  - The dashboard's default selection "#0f766e" is (15, 118, 110).
  - The game's own default is (15, 119, 110) (main.py:449).
  - See `Dashboard.DefaultSelectionNearGameDefault`.
- **Launch count.**
  - Every launch that reaches `Popen` writes two entries that mention "launch" (app.py:425 with 433 or 436).
  - So `launch_count` counts each launch twice. See `Dashboard.LaunchingCounted` and its two siblings.
- **Colour components.**
  - Documented: a parsed colour is an RGB triple.
  - Code: `int(pair, 16)` also accepts a sign, so `hex_to_rgb("#-f-f-f")` gives (-15, -15, -15) (main.py:30-33).
  - The dashboard accepts "#-f-f-f", since it has length 7 and starts with `#` (app.py:511), and passes it to the game with `--car-color`.
  - The model's parse accepts hex digits only, and rejects this input. See the `Colors.HexToRgb` line under "Left out".
- **Duration.**
  - The documented "floor" of the elapsed seconds is `int()`, which truncates towards zero.
  - The two agree whenever the end is no earlier than the start.

## Left out

- Rendering, sprites, audio, the window, the road animation and the game-over screen: I/O.
- The event loop's mute, volume, R (restart by recursion into `main()`) and Q keys. `Tick` takes the frame's steering keys as a list of `-1`/`+1`.
- The `playing` flag: it is false only inside the crash branch, which `Tick` runs to completion.
- Network calls. The colour poll's answer is an input of `PollColor`/`Tick`, and its 0.9 s timing is the caller's choice. The score submission is the `ScoreReport` that `Tick` returns.
- The obstacles' random colours: they are only drawn.
- The dashboard's file persistence and writer thread. The constructor's `persisted` argument stands for the file's list, or `None` when it does not parse.
- The `extra` payloads of log entries, the Flask routing, the HTML page and `api_theme`.
- The "Dashboard listening" entry that the `__main__` block logs before serving (app.py:535): it belongs to starting the web server, which is left out with the routing.
- `sys.executable`, the game's path and whether it exists are inputs or constants of the dashboard.
- The handlers' exception paths, other than an unparsable body of `SubmitScore`, `ApiSetColor` or `ApiSetTheme`: an exception from `proc.poll()`, the "Failed to stop game" path, and an `int()` that fails on the lanes of `/api/start`.
- Dashboard.Dashboard.ApiStart: has no request-body input. A body that does not parse as JSON raises at app.py:417, and a JSON body that is not an object raises at app.py:418. Either happens after a dead child was already cleared at app.py:413 or 415.
- Dashboard.Dashboard.ApiSetColor: the request's `name` is an optional string (`ColorRequest`). A JSON `null`, a number or any other non-string name is stored and logged as it is by app.py:509-514. The model cannot hold such a name.
- `ApiStop`'s reply carries whether a kill was needed rather than the child's return code, which is OS state.
- Floating point: positions, speeds, features and times are exact `real`s or `int`s, so the model makes no claim about rounding. `math.sqrt` is dropped because squared distances have the same order.
- Colors.HexToRgbDefinedIff: states the domain of the model's parse, which is narrower than Python's, for the reason on the next line.
- Colors.HexToRgb: accepts only hex-digit pairs, while Python's `int(s, 16)` also takes forms such as `"+f"`, `" f"` or `"-f"`. So `hex_to_rgb("#-f-f-f")` is (-15, -15, -15) in Python, a component outside [0, 255], while the model rejects that input. The [0, 255] bound is a property of the model's parse only.
- Dashboard.Lower: lower-cases ASCII letters only, while Python's `str.lower` covers all of Unicode.
- Dashboard.Dashboard.SubmitScore: a body whose score or lanes `int()` rejects is modelled as the unparsable body `None`.
- Knn.TinyKnn.Predict: requires `k > 0`. With `k = 0` Python's `max` of no votes raises, and the game always uses `k = 3`.
- Actors.Obstacle: a value, not an object. `Obstacle.update` is `Advanced`, and the advance loop replaces each obstacle by its advanced copy. No obstacle is shared, so no aliasing is lost.
- GameState.Game.SpawnInto: the state changes of the spawn block are stated together, not in the order of their statements.
- GameState.Game.Tick: the spawned lane, the prediction and the rotated scheduler are ghost results. After a crash, what the spawn did to the scheduler and the predictor is not stated, because the reset replaces both.
