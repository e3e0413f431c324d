# Drone race environment, modelled in Dafny

This project models the simulation core of a drone-racing reinforcement
learning environment written in C. It has two modules:

- `DroneRace` (`drone_race.dfy`) models `drone_race/drone_race.h`. It covers the
  episode state machine of a quadrotor that must fly through a course of rings
  in order:
  - `c_reset` resets the counters, installs a fresh course, initialises the
    drone and places it with a do-while rejection loop that keeps it at least
    `2 * 2.0` from the first ring;
  - `c_step` advances the flight dynamics once and then takes exactly one of
    four exits: out of bounds, ring collision, truncation (move budget spent
    or course completed), or continue;
  - every terminal exit raises `terminals[0]`, adds the ended episode to the
    running `Log` sums with `add_log` and resets the episode in place;
  - `compute_observations` writes the 29-slot observation vector.

  The class `DroneRace.DroneRace` holds the C struct's fields:
  - the host-shared buffers and the ring buffer are `array`s;
  - the counters, the log and the drone are fields that the methods update.

  Each method is proved against a function on values:
  - `StepSpec` and `RingOutcome` give the bookkeeping of one step;
  - `Logged` gives `add_log`;
  - `Observe` gives the observation vector;
  - `SpawnedDrone` and `FirstAccepted` give the spawn loop.

  The lemmas beside them state what a step does, exit by exit, and that the
  episode and log invariants hold over any run.
- `SimEnv` (`sim_env.dfy`) models `simulator/env.h`:
  - the fixed-capacity `LogBuffer` with its append and its average-and-clear;
  - the scalar helpers `clampf`, `rndf` and `rndi`;
  - the vector helpers over `float[3]`;
  - the toy `Drone` environment's allocation, reset, observation and step.

The flight-dynamics library (`init_drone`, `move_drone`, `check_ring`,
`quat_inverse`, `quat_rotate`, `reset_rings`) is not part of this model. It
enters as the total functions of a `FlightDynamics` value, and the course
`reset_rings` generates enters as an input. Random draws are inputs too: a
`ResetDraws` value for the drone race, and sequences of `rand()` results for
`SimEnv`. Floats are modelled as reals.

Three facts about the code shape the model:
- Every terminal exit, the collision exit included, leaves observations for
  the new episode, because `c_reset` calls `compute_observations`
  (drone_race/drone_race.h:153). `EndEpisode` and `Step` prove this as
  `ObservationsFresh()`.
- Because `ring_idx < max_rings` holds between steps, the "next ring" read at
  drone_race/drone_race.h:77 (`ring_idx % max_rings`) is always the current
  ring. `Observe` proves that observation slots 6..11 repeat slots 0..5.
- Passing the last ring on the last move is logged as a timeout. `moves_left`
  reaches 0 in the same step in which `ring_idx` reaches `max_rings`, so
  `add_log` at drone_race/drone_race.h:200 receives `timeout = 1` together
  with the full score. `CourseCompletedOnLastMove` proves this.

## Model

| member | source | states |
|---|---|---|
| DroneRace.FirstAccepted | drone_race/drone_race.h:143-149 | the spawn the rejection loop ends on is the first candidate at squared distance at least 16 from ring 0; every earlier candidate is rejected |
| DroneRace.SampleSpawn | drone_race/drone_race.h:143-149 | the do-while loop stops on a candidate that is far enough from the target, every candidate before it was too close, and its index is `FirstAccepted` |
| DroneRace.SpawnedDrone | drone_race/drone_race.h:139-151 | the reset drone sits at squared distance at least (2 * 2.0)^2 from ring 0, `prevPos == pos`, and it keeps the limits `init_drone` gave it |
| DroneRace.NextRingIndex | drone_race/drone_race.h:77 | the "next ring" index is always a valid ring index, and it equals `ringIdx` while `ringIdx < maxRings` |
| DroneRace.FarEnough | drone_race/drone_race.h:149 | the spawn test (squared distance at least (2 * 2.0)^2 from the ring) never accepts the ring's own centre |
| DroneRace.InsideFlightVolume | drone_race/drone_race.h:166-168 | a position that passes the bounds test lies within the box's corner distance of the origin, and the origin always passes it |
| DroneRace.NewEpisodeValid | drone_race/drone_race.h:128-134 | the counters `c_reset` installs (tick, score, return and ring index 0, `moves_left = max_moves`) satisfy the episode invariant |
| DroneRace.Observe | drone_race/drone_race.h:72-125 | the observation vector has 29 slots, and slots 6..11 (the "next" ring) repeat slots 0..5 (the current ring) |
| DroneRace.Logged | drone_race/drone_race.h:61-70 | add_log adds exactly 1 to `n`, adds each outcome flag to its own sum, and adds a `perf` increment in [0, 1] whenever `0 <= ringIdx <= maxRings` |
| DroneRace.FractionInUnit | drone_race/drone_race.h:65 | `ringIdx / maxRings` lies in [0, 1] for `0 <= ringIdx <= maxRings` |
| DroneRace.LoggedKeepsLogInv | drone_race/drone_race.h:61-70 | logging an episode of at most `maxMoves` ticks with at most one outcome flag keeps the sums consistent: the flags sum to at most `n`, `0 <= perf <= n`, and the summed length is at most `n * maxMoves` |
| DroneRace.StepSpec | drone_race/drone_race.h:156-203 | `terminals[0]` is 1 exactly on the three ending exits; the step's reward is -1 out of bounds and `check_ring`'s value otherwise |
| DroneRace.RingOutcome | drone_race/drone_race.h:186-205 | after the ring check, the terminal flag is 1 exactly when the episode ends, and the reward is `check_ring`'s value |
| DroneRace.StepOutcome | drone_race/drone_race.h:156-207 | which exit runs (out of bounds iff the bounds test fails; collision iff inside and reward < 0; truncation iff the moves or the rings run out); an ended episode is replaced by the reset counters; a continuing one has one more tick, one move fewer, and +1 score and ring index exactly on a positive reward; the log gains one entry per ended episode with the one matching flag (timeout only when `moves_left` reaches 0), the ended return and length; `log.score` is the ended episode's score, or 0 on a continuing step; `log.perf` grows by the ended episode's ring fraction (counting a ring passed on the ending step) and not at all on a continuing step |
| DroneRace.StepKeepsEpisodeInv | drone_race/drone_race.h:186-203 | from any valid episode every exit leaves `0 <= ringIdx < maxRings`, `1 <= movesLeft <= maxMoves`, `tick + movesLeft == maxMoves` and `score == ringIdx` |
| DroneRace.StepKeepsLogInv | drone_race/drone_race.h:170-202 | every exit keeps the log's sums consistent, and `perf` grows by at most 1 per step |
| DroneRace.RunKeepsInvariants | drone_race/drone_race.h:156-208 | over any sequence of steps both invariants hold, and `log.n` grows by exactly the number of episodes that ended |
| DroneRace.CourseCompletion | drone_race/drone_race.h:196-203 | passing the last ring with moves to spare truncates the episode, sets the terminal flag, leaves all three outcome flags unchanged and logs the full score `maxRings` |
| DroneRace.CourseCompletedOnLastMove | drone_race/drone_race.h:196-203 | passing the last ring on the last move truncates the episode and logs it as a timeout (timeout +1) with the full score `maxRings` and `perf` +1; the oob and collision sums are unchanged |
| DroneRace.DroneRace.constructor | drone_race/drone_race.h:55-59 | init: an empty log, tick 0 and a fresh ring buffer of `maxRings` entries |
| DroneRace.DroneRace.AddLog | drone_race/drone_race.h:61-70 | add_log changes only the log, which becomes `Logged` of the old log and the current counters |
| DroneRace.DroneRace.ComputeObservations | drone_race/drone_race.h:72-125 | changes only the observation buffer, which becomes `Observe` of the drone, the ring buffer and the ring index |
| DroneRace.DroneRace.ResetRings | drone_race/drone_race.h:136 | the ring buffer is overwritten in place with the new course |
| DroneRace.DroneRace.Reset | drone_race/drone_race.h:127-154 | c_reset: tick, score, return and ring index are 0, `movesLeft == maxMoves`, the log is kept, the course is installed, the drone is `SpawnedDrone` (far enough from ring 0, `prevPos == pos`), and the invariants and fresh observations hold |
| DroneRace.DroneRace.ResetTwice | drone_race/drone_race.h:127-134 | two resets with different draws end exactly where one reset with the second draws ends: the same counters, log, course, drone and observations |
| DroneRace.DroneRace.EndEpisode | drone_race/drone_race.h:199-201 | the shared terminal epilogue: the terminal flag is 1, the log is `Logged` of the ended episode with the given flags, and the episode is reset with valid state and fresh observations |
| DroneRace.DroneRace.FlewOut | drone_race/drone_race.h:170-177 | the out-of-bounds exit: reward and return drop by 1 before logging, the terminal flag is 1, the log gains the entry with the oob flag, and the episode is reset with fresh observations |
| DroneRace.DroneRace.FinishStep | drone_race/drone_race.h:186-207 | the rest of the step follows `RingOutcome`; a continuing episode keeps its course and remembers the position; an ended one is reset |
| DroneRace.DroneRace.Step | drone_race/drone_race.h:156-208 | c_step follows `StepSpec` on the moved drone: counters, log, `rewards[0]` and `terminals[0]` equal the specification's; a continuing episode keeps the moved drone with `prevPos` updated and its course; an ended one is reset; the invariants and fresh observations hold after every step |
| SimEnv.Mean | simulator/env.h:61-63 | the mean times the count gives back the sum |
| SimEnv.SumLogs | simulator/env.h:56-60 | the running sum over a single entry is that entry |
| SimEnv.SumLogsAppend | simulator/env.h:56-60 | the running sum over a concatenation is the sum of the two running sums |
| SimEnv.SumLogsBounds | simulator/env.h:56-60 | when every entry's field lies in [lo, hi], the sum lies between the count times lo and the count times hi |
| SimEnv.AverageBounds | simulator/env.h:56-63 | the average of entries whose field lies in [lo, hi] lies in [lo, hi] |
| SimEnv.LogBuffer.constructor | simulator/env.h:28-33 | allocate_logbuffer: `length == size`, `idx == 0`, every entry zero |
| SimEnv.LogBuffer.AddLog | simulator/env.h:41-46 | on a full buffer nothing changes; otherwise the log is stored at `idx`, `idx` grows by 1, every other entry is unchanged; `0 <= idx <= length` is kept; the contents grow by exactly the new log |
| SimEnv.LogBuffer.AggregateAndClear | simulator/env.h:51-66 | returns the all-zero log when empty, otherwise the field-wise average of the first `idx` entries; `idx` becomes 0 and the entries are not touched |
| SimEnv.Clampf | simulator/env.h:71-77 | the result is v, min or max; it lies in [min, max] when min <= max; v in range is returned unchanged; below min gives min |
| SimEnv.ClampfIdempotent | simulator/env.h:71-77 | clamping twice is clamping once |
| SimEnv.Rndf | simulator/env.h:79-81 | a `rand()` result in [0, RAND_MAX] maps into [a, b]; 0 maps to a and RAND_MAX to b |
| SimEnv.CRem | simulator/env.h:83 | C's `%` truncates toward zero: the remainder has the dividend's sign and is smaller in size than the divisor |
| SimEnv.Rndi | simulator/env.h:83 | for b >= a and a non-negative `rand()` result the value lies in [a, b]; a == b gives a |
| SimEnv.Dot3 | simulator/env.h:85-87 | a vector's scalar product with itself is never negative |
| SimEnv.CrossProductOrthogonal | simulator/env.h:89-93 | the cross product is orthogonal to both of its factors |
| SimEnv.SubUndoesAdd | simulator/env.h:106-116 | sub3 undoes add3 |
| SimEnv.Cross3 | simulator/env.h:89-93 | out holds the cross product of a and b |
| SimEnv.Add3 | simulator/env.h:106-110 | out holds a + b computed from the inputs' old values, even when out aliases an input |
| SimEnv.Sub3 | simulator/env.h:112-116 | out holds a - b computed from the inputs' old values, even when out aliases an input |
| SimEnv.Scalmul3 | simulator/env.h:118-122 | out holds s * a computed from a's old value, even when out aliases a |
| SimEnv.UniformPoint | simulator/env.h:197-207 | three `rndf(-10, 10)` draws give a point of the box [-10, 10]^3 |
| SimEnv.Drone.constructor | simulator/env.h:149-163 | allocate: tick 0, zeroed observations of 8 slots, an empty log buffer of 1024 entries, and the given `sin` and `cos` |
| SimEnv.Drone.ComputeObservations | simulator/env.h:173-188 | the 8 slots hold the move target and the position scaled by 1/GRID_SIZE, then `sin(yaw)` and `cos(yaw)` |
| SimEnv.Drone.Reset | simulator/env.h:190-210 | c_reset: the log is zero, `n_targets == 5`, `moves_left == 1500`, `yaw == 0`, tick is kept, the position and both targets are the uniform draws, and the observations are fresh |
| SimEnv.Drone.Step | simulator/env.h:212 | c_step refreshes all 8 observation slots (scaled target, scaled position, `sin(yaw)`, `cos(yaw)`) and nothing else |

## Left out

- The flight dynamics (`init_drone`, `move_drone`, `check_ring`, `quat_inverse`, `quat_rotate`, `reset_rings`) are not part of this model. They are arbitrary total functions of a `FlightDynamics` value. `move_drone` changes only the drone's dynamic state, and `check_ring` is taken to be free of side effects.
- The generated course is an input. Nothing is assumed about its ring positions or radii beyond the buffer length.
- DroneRace.DrawsOk: the spawn candidates are unconstrained points. `MARGIN_X`, `MARGIN_Y` and `MARGIN_Z` come from the flight-dynamics header, which is not part of this model, so the model does not promise that a spawn lies in the box `rndf(-MARGIN_*, MARGIN_*)` draws from (drone_race/drone_race.h:144-148).
- Random draws (`rand`, `rndf` in `c_reset`) are inputs: `ResetDraws` for the drone race, sequences of `rand()` results for `SimEnv`.
- DroneRace.DroneRace.Reset: the spawn loop's termination is not proved. `DrawsOk` requires that the candidate spawns contain an accepted point; that is a property of the random source.
- DroneRace.DroneRace.Reset: the spawn test compares the squared distance with 16, not `norm3` with 4, because the model has no square root. The two tests agree on reals.
- DroneRace.DroneRace.ComputeObservations: stores the 29 values with one parallel assignment instead of 29 separate writes. The final buffer is the same because no value read depends on the buffer.
- DroneRace.Observe: the observation values are computed on reals. Float rounding and the values `quat_rotate` returns are not modelled; only the slot layout and the rings used are constrained.
- `sin` and `cos` of the C math library are not part of this model. They are the functions `sine` and `cosine` given to the `SimEnv.Drone` constructor.
- SimEnv.Dot3: states only non-negativity of a vector's product with itself, since the value itself is the body.
- SimEnv.Cross3: requires that `out` is neither factor. With aliasing, the C code reads components it has already overwritten, and the model does not describe that result.
- SimEnv.Rndi: does not model overflow of `b - a + 1` or of the sum in 32-bit `int`.
- `norm3` and `normalize3` (square root) are left out.
- Float arithmetic is modelled as real arithmetic throughout (no rounding, no overflow to infinity). `int` counters (`tick`, `score`, `ring_idx`, `moves_left`) are unbounded integers.
- `GRID_X`, `GRID_Y` and `GRID_Z` (the flight-volume half-extents) come from the flight-dynamics header, which is not part of this model. They are the parameter `grid`, required to be positive. The drone's limits `max_vel`, `max_omega` and `max_rpm` are required to be positive because the observations divide by them.
- `max_rings >= 1` and `max_moves >= 1` are preconditions of the constructor and part of `Allocated()`, which `Step` (through `Valid()`), `Reset`, `ResetTwice`, `EndEpisode`, `FlewOut`, `FinishStep` and `ComputeObservations` require. `AddLog` requires only `max_rings >= 1` and `ResetRings` requires neither. The Python binding (drone_race/binding.c) does not check them.
- DroneRace.DroneRace.Reset: `init_drone` enters as `initDrone: (real, real) -> Drone`. This assumes the drone after `init_drone` does not depend on the previous drone, although the code passes `&env->drone` to it in place (drone_race/drone_race.h:139-141). The clause `drone == SpawnedDrone(...)` of `Reset` and the drone clause of `ResetTwice` rest on this.
- Memory management (`malloc`, `calloc`, `free`, `free_logbuffer`, `free_allocated`) is left out; buffers are Dafny arrays allocated by the constructors.
- The unused `report_interval` field and the rendering client (camera, trail, `c_render`, `make_client`) are left out: they do not affect simulation state.
- drone.py (plotting, command line, model loading) and drone_race/binding.c (Python marshalling) are not part of this model.
