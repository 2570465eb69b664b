# Grid-Mind intersection core, modelled in Dafny

This project models the simulation core of Grid-Mind. Grid-Mind simulates one four-way intersection with two approaches: eastbound cars and southbound cars.

The model has four parts:

- **Traffic** (`traffic_env.dfy`) models `TrafficEnv` and `Car`:
  - the central conflict box and the right-of-way rule `can_move`;
  - the two-phase signal, with its minimum green time and its per-direction red-time counters;
  - spawning, the in-place move loop and eviction of cars that leave the screen;
  - the waiting-count snapshot that a controller observes.
- **Controller** (`smart_controller.dfy`) models `SmartController`, the rule-based starvation-aware policy.
- **Metrics** (`metrics.dfy`) models `MetricsTracker` and its linear fuel and CO2 estimate.
- **ControlLoop** (`control_loop.dfy`) models one round of the interactive driver: observe, decide, step.

`Config` (`config.dfy`) holds the constants of `core/config.py`.

Phase 0 gives green to southbound traffic and phase 1 gives green to eastbound traffic, as in the source.

The central result is a mutual-exclusion invariant: at most one car ever overlaps the conflict box. It is `Traffic.Exclusive`, part of `TrafficEnv.Valid()`, and `Step` preserves it.

- Step judges cars one at a time, in list order. Each car is judged against the list as already updated for the cars before it, exactly as the Python loop mutates cars in place.
- `MovePreservesExclusive` proves that this sequential update keeps the box to one occupant.
- `EntryNeedsEmptyBoxAndGreen` proves that a car only enters the box when the box is otherwise empty and its light is green.
- `NoOpposingOverlap` and `TrafficEnv.NoCollision` draw the consequence: the two lanes cross only inside the box, so an eastbound car and a southbound car never overlap.

`Valid()` also keeps three more facts:

- every held (waiting) car is outside the box, so a car in the box is never held;
- every car stays on screen;
- every car stays in its own lane with its own velocity.

Sources of nondeterminism become parameters:

- the two `random.random() < SPAWN_PROB_PER_FRAME` draws become the booleans `spawnEast` and `spawnSouth`;
- the frame time becomes `dt`.

Three behaviours of the code are kept as written:

- **Red times after the switch.** The red-time counters are updated using the phase in force after the switch request has been handled (core/traffic_env.py:167-180), not the phase at the start of the step.
- **No spawn clearance check.** Spawning does not check that the entry lane is clear (core/traffic_env.py:72-87). `can_move` never looks at the car ahead in the same lane, so cars in one lane may overlap. The model keeps this and claims no spacing property.
- **Metrics are not fed by the step.** `TrafficEnv.step` never reports to `MetricsTracker`, so the two are kept separate.

## Model

| member | source | states |
|---|---|---|
| `Traffic.ConflictBoxValue` | core/traffic_env.py:103-113 | The conflict box built from the window centre and half the road width is the rectangle (360, 360, 80, 80). |
| `Traffic.AdvanceRect` | core/traffic_env.py:136-137 | The rectangle of a car after it moves is its rectangle translated by (vx, vy). So "would overlap after moving" is the same as "overlaps once moved". |
| `Traffic.ArrivalsAreFresh` | core/traffic_env.py:72-87 | One spawn round adds one eastbound car per true East draw and one southbound car per true South draw. Each new car is outside the box, not waiting, on screen, and in its lane at the given speed. |
| `Traffic.CarRect` | core/traffic_env.py:26-31 | A car's rectangle starts at its position and is 20 wide and 40 tall, whatever its direction. |
| `Traffic.MayMove` | core/traffic_env.py:117-154 | The right-of-way rule. A car in the box may move. Otherwise, if another car is in the box, it may move only if its next rectangle misses the box. Otherwise it may move if its next rectangle misses the box or its direction is green. |
| `Traffic.InBoxAlwaysMoves` | core/traffic_env.py:117-122 | A car whose rectangle already overlaps the conflict box is always allowed to move. |
| `Traffic.OccupiedBoxIsNotEntered` | core/traffic_env.py:124-140 | Another car occupies the box and this car is outside it. Then this car may move if and only if its moved rectangle does not overlap the box, so a released car never enters an occupied box. |
| `Traffic.EmptyBoxEnteredOnGreen` | core/traffic_env.py:142-154 | The box is empty and the car is outside it. If its next rectangle would overlap the box, the car moves iff (EAST and phase 1) or (SOUTH and phase 0). Otherwise it always moves. |
| `Traffic.EntryNeedsEmptyBoxAndGreen` | core/traffic_env.py:95-154 | A released car that moves from outside the box to inside it found no other car in the box and had the green light. |
| `Traffic.CanMove` | core/traffic_env.py:95-154 | The query is implemented with the early return, the scan with `break` and the entry test. Its answer equals the three-branch right-of-way rule `MayMove`. |
| `Traffic.MovePrefix` | core/traffic_env.py:184-190 | After the loop has processed its first k cars, each of them has either advanced by its velocity or been held in place. The remaining cars are untouched, and the list length is unchanged. |
| `Traffic.MoveCars` | core/traffic_env.py:184-190 | The in-place loop over the cars, judging each with `CanMove` against the list as already updated, returns exactly the sequential update `MoveAll`. |
| `Traffic.MoveSettled` | core/traffic_env.py:184-190 | Once the loop has passed car i, later iterations never change it. |
| `Traffic.MoveAllEach` | core/traffic_env.py:184-190 | After the loop, a car is waiting exactly when the rule denied it, judged against the list as updated for earlier cars. A moving car has x += vx and y += vy, and a waiting car keeps its position. Direction, vx and vy never change. |
| `Traffic.UpdatePreservesExclusive` | core/traffic_env.py:95-154 | Judging and moving one car keeps at most one car in the conflict box. |
| `Traffic.MovePreservesExclusive` | core/traffic_env.py:184-190 | The whole sequential move loop keeps at most one car in the conflict box. |
| `Traffic.ExclusiveAppend` | core/traffic_env.py:72-87 | Appending cars that lie outside the box keeps at most one car in it. |
| `Traffic.MoveStopsOutside` | core/traffic_env.py:184-190 | Every car the loop holds (marks waiting) is outside the conflict box. |
| `Traffic.Evict` | core/traffic_env.py:192-196 | A car survives eviction iff it was in the list and satisfies -200 < x < 1000 and -200 < y < 1000. The list never grows. |
| `Traffic.EvictAppend` | core/traffic_env.py:193-196 | Eviction distributes over concatenation, so survivors keep their original order. |
| `Traffic.EvictKeepsAllOnScreen` | core/traffic_env.py:193-196 | When every car is within the margin, eviction returns the list unchanged. |
| `Traffic.EvictPreservesExclusive` | core/traffic_env.py:193-196 | Eviction keeps at most one car in the conflict box. |
| `Traffic.LanesCrossInBox` | core/traffic_env.py:75-87 | An eastbound and a southbound car in their lanes overlap only when both overlap the conflict box. |
| `Traffic.NoOpposingOverlap` | core/traffic_env.py:95-102 | In a valid car list, an eastbound car and a southbound car never have overlapping rectangles. |
| `Traffic.MoveKeepsCarsValid` | core/traffic_env.py:184-196 | The move loop followed by eviction re-establishes the car invariant: on screen, in lane, held cars outside the box, at most one car in the box. |
| `Traffic.CountWaiting` | core/traffic_env.py:208-209 | The per-direction waiting count is at most the number of cars. It is zero iff no car of that direction is waiting. |
| `Traffic.CountWaitingBothDirections` | core/traffic_env.py:208-209 | No car is counted for both directions: the two counts sum to at most the number of cars. |
| `Traffic.TrafficEnv.constructor` | core/traffic_env.py:51-62 | A new simulation has no cars, phase 0, and every timer at zero. |
| `Traffic.TrafficEnv.Reset` | core/traffic_env.py:64-70 | Afterwards there are no cars, phase is 0, and phase_timer, time and both red times are 0. No part of the new state depends on the old one, so two resets give the same state. |
| `Traffic.TrafficEnv.SpawnCars` | core/traffic_env.py:72-87 | The East car is appended at (-40, 380) with velocity (speed, 0), then the South car at (380, -40) with velocity (0, speed). Each is appended only if its draw succeeds, and nothing else changes. |
| `Traffic.TrafficEnv.SetPhase` | core/traffic_env.py:156-159 | Sets the phase and restarts the phase timer; nothing else changes. |
| `Traffic.TrafficEnv.Step` | core/traffic_env.py:161-198 | The phase changes only when phase_timer + dt >= 3.0 and the request differs, becoming the request with phase_timer 0; otherwise it is unchanged and phase_timer grows by dt. For the new phase, the green direction's red time is 0 and the red one's grows by exactly dt. The cars are the evicted result of the sequential move loop over the old cars plus the spawned ones. Time grows by dt, and the invariant (one car at most in the box) is preserved. |
| `Traffic.TrafficEnv.NoCollision` | core/traffic_env.py:95-102 | In every state the simulation reaches, no eastbound car overlaps a southbound car. |
| `Traffic.TrafficEnv.GetState` | core/traffic_env.py:200-216 | The east and south waiting counts are positive exactly when a car of that direction is waiting, and together they number at most the cars. The red times are copied unchanged, and nothing is modified. |
| `Metrics.Estimate` | core/metrics.py:33-44 | CO2 is 2.3 times fuel. Fuel and CO2 are non-negative for non-negative times. Fuel is zero iff idle + moving/2 is zero. |
| `Metrics.EstimateExample` | core/metrics.py:39-44 | 3 s idle and 2 s moving give fuel 4.0 and CO2 9.2. |
| `Metrics.EstimateAdditive` | core/metrics.py:41-43 | Fuel and CO2 are additive over a split of the recorded times. |
| `Metrics.EstimateMonotone` | core/metrics.py:39-43 | More idle or moving time never lowers the estimate. One idle second costs as much fuel as two moving seconds. |
| `Metrics.MetricsTracker.constructor` | core/metrics.py:11-15 | All four accumulators start at zero. |
| `Metrics.MetricsTracker.Reset` | core/metrics.py:17-21 | All four accumulators are zero afterwards. |
| `Metrics.MetricsTracker.UpdateCarState` | core/metrics.py:23-28 | A waiting car adds dt to wait and idle time only; otherwise dt goes to moving time only. Wait time equals idle time before and after, every accumulator is non-decreasing for dt >= 0, and the fuel estimate grows by 1.0·dt or 0.5·dt. |
| `Metrics.MetricsTracker.IncrementCarsPassed` | core/metrics.py:30-31 | The passed-car count rises by exactly one, and no time accumulator changes. |
| `Metrics.MetricsTracker.EstimateEmissions` | core/metrics.py:33-44 | A pure read: it is the linear estimate over the current idle and moving totals. |
| `Controller.Decision` | smart_controller.py:33-48 | The result is 1 iff East is starved, or South is not starved and East has more waiting cars (or a tie with previous phase 1). It is 0 in the mirrored case, with East's starvation taking priority. It stays in {0,1} when the previous phase is in {0,1}. |
| `Controller.EastStarvationWins` | smart_controller.py:34-36 | With East waiting and red for at least the bound, the decision is 1 whatever South's values and the previous phase are. |
| `Controller.SouthStarvationWins` | smart_controller.py:37-39 | If East is not starved and South is, the decision is 0. |
| `Controller.TieKeepsPrevious` | smart_controller.py:41-48 | With no starvation and equal waiting counts, the previous phase is returned unchanged. |
| `Controller.DecisionStable` | smart_controller.py:19-48 | Deciding twice on the same observation returns the same phase. |
| `Controller.SmartController.constructor` | smart_controller.py:12-14 | The fairness bound is the one given, 20.0 by default, and the current phase starts at 0. |
| `Controller.SmartController.Reset` | smart_controller.py:16-17 | The current phase becomes 0. |
| `Controller.SmartController.Decide` | smart_controller.py:19-48 | The returned phase is the new current phase. It equals `Decision` of the observation, the bound and the previous current phase. |
| `ControlLoop.ControlTick` | main.py:23-25 | Once the minimum green has elapsed, the signal shows the controller's choice: a starved East then has green and zero red time, and so does a starved South when East is not starved. The simulation invariant holds and the controller phase stays in {0,1}. |

## Left out

- Rendering and pygame setup are not modelled, because they are display and foreign-library calls with no effect on the simulation state. This covers `pygame.init`, the window, the clock, the `render` flag of `__init__`, `draw_roads`, `draw_cars`, `draw_signal`, `render` and `close`.
- The random spawn draws are inputs `spawnEast`/`spawnSouth` of `SpawnCars` and `Step`. `SPAWN_PROB_PER_FRAME` is not needed, because the draws are not modelled.
- Positions and the speed are integers, and the speed is a positive parameter of the `TrafficEnv` constructor. The source moves cars by the float 2.5 and pygame truncates positions into integer rectangles. This truncation, and float drift of the position, are not modelled.
- Times (`dt`, the phase timer, red times, metric totals) are mathematical reals, since IEEE rounding is not modelled.
- Rectangle collision is the strict open-interval overlap for rectangles of positive size, because every rectangle here has positive size. Pygame's rules for zero-size and negative-size rectangles are not modelled.
- A car is named by its index in the list. This matters for the `other is car` identity test, where every car in the Python list is a distinct object. A `Car` is a value, so aliasing of car objects is not modelled.
- The move loop (`Traffic.MoveCars`) updates a sequence value that `Step` then assigns back to `cars`, instead of mutating car objects inside the list. Each car is still judged against the updated positions of the cars before it.
- `Traffic.TrafficEnv.Step`: requires `dt > 0` and `phaseAction` in {0,1}. The source does not validate either, so this is a modelling choice.
- `Traffic.TrafficEnv.SetPhase`: requires a phase in {0,1}, while the source stores any value.
- `Controller.SmartController.Decide`: takes a typed `Observation` instead of a dictionary, so a missing key (a `KeyError` in Python) cannot occur.
- Three constants in `core/config.py` are unused by the modelled code: `SAFETY_MARGIN`, `MAX_RED_TIME_SEC` and `FPS`. The controller's default bound 20.0 comes from its own constructor.
- The learning agent (`agent/dqn_agent.py`) is out of scope: it is neural-network training with numeric libraries.
- The training and demo entry points are out of scope. They call members that `TrafficEnv` does not define: `get_simple_state` (main_demo.py:24), a `step` returning four values and an `env.metrics` attribute (main_train.py:25,34).
- `app/dashboard.py` is out of scope: it only prints an episode summary.
- Within `main.py`, only one observe/decide/step round is modelled; the event and frame loop around it is not.
- Properties over several ticks are not stated as lemmas, because Step's contract is per tick. One example is red time equal to k·dt after k consecutive red steps.
