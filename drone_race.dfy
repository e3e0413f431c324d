/**
 * The drone-race episode engine of drone_race/drone_race.h: a quadrotor
 * must fly through a course of rings in order. Each call of Step advances
 * the flight dynamics once and then takes exactly one of four exits:
 * out of bounds, ring collision, truncation (move budget spent or course
 * completed) or continue. Every terminal exit records the episode in the
 * running log and resets the episode in place.
 *
 * The flight dynamics (drone initialisation, integration, ring-passage
 * test, quaternion helpers) belong to a library that is not part of this
 * model; they enter as the total functions of a FlightDynamics value.
 * Random draws enter as ResetDraws values. Floats are modelled as reals.
 */
module DroneRace {

  // ---------------------------------------------------------------------
  // Values published by the flight-dynamics library
  // ---------------------------------------------------------------------

  datatype Vec3 = Vec3(x: real, y: real, z: real)

  /** Orientation quaternion, w-x-y-z. */
  datatype Quat = Quat(w: real, x: real, y: real, z: real)

  function Sub(a: Vec3, b: Vec3): Vec3 {
    Vec3(a.x - b.x, a.y - b.y, a.z - b.z)
  }

  function SquaredNorm(v: Vec3): real {
    v.x * v.x + v.y * v.y + v.z * v.z
  }

  /** A target gate: centre, unit normal and radius. */
  datatype Ring = Ring(pos: Vec3, normal: Vec3, radius: real)

  datatype Rotors = Rotors(r0: real, r1: real, r2: real, r3: real)

  /** The drone's dynamic state, advanced by the integrator. */
  datatype DroneState = DroneState(pos: Vec3, vel: Vec3, omega: Vec3, quat: Quat, rpms: Rotors)

  /** The drone's static performance limits, fixed when it is initialised. */
  datatype DroneParams = DroneParams(maxVel: real, maxOmega: real, maxRpm: real)

  datatype Drone = Drone(state: DroneState, params: DroneParams, prevPos: Vec3)

  /** The observation encoding divides by all three limits. */
  predicate ParamsPositive(p: DroneParams) {
    p.maxVel > 0.0 && p.maxOmega > 0.0 && p.maxRpm > 0.0
  }

  /**
   * The flight-dynamics port: init_drone, move_drone (which changes only
   * the dynamic state), check_ring (positive on passage, negative on
   * collision, zero otherwise), quat_inverse and quat_rotate.
   */
  datatype FlightDynamics = FlightDynamics(
    initDrone: (real, real) -> Drone,
    moveDrone: (Drone, seq<real>) -> DroneState,
    checkRing: (Drone, Ring) -> real,
    quatInverse: Quat -> Quat,
    quatRotate: (Quat, Vec3) -> Vec3)

  // ---------------------------------------------------------------------
  // Constants of the episode
  // ---------------------------------------------------------------------

  /** Radius every ring of the course is generated with. */
  const RingRadius := 2.0
  /** A spawn is rejected while closer than 2 * RingRadius to ring 0: (2 * 2.0)^2. */
  const MinSpawnDistSq: real := 16.0
  const DroneMass := 0.1
  const MinDroneSize := 0.05
  const MaxDroneSize := 0.8
  /** Length of the observation vector. */
  const ObsSize := 29
  /** Number of motor commands move_drone reads. */
  const ActionCount := 4

  /** The flight volume's half-extents along x, y and z must be positive. */
  predicate GridOk(grid: Vec3) {
    grid.x > 0.0 && grid.y > 0.0 && grid.z > 0.0
  }

  /** The out-of-bounds test: some coordinate beyond its half-extent. */
  predicate LeftFlightVolume(p: Vec3, grid: Vec3) {
    p.x < -grid.x || p.x > grid.x ||
    p.y < -grid.y || p.y > grid.y ||
    p.z < -grid.z || p.z > grid.z
  }

  /**
   * A position that passes the bounds test lies within the box's corner
   * distance of the origin, and the origin always passes it.
   */
  lemma InsideFlightVolume(p: Vec3, grid: Vec3)
    requires GridOk(grid)
    ensures !LeftFlightVolume(p, grid) ==> SquaredNorm(p) <= SquaredNorm(grid)
    ensures !LeftFlightVolume(Vec3(0.0, 0.0, 0.0), grid)
  {
  }

  // ---------------------------------------------------------------------
  // Random draws of one reset
  // ---------------------------------------------------------------------

  /**
   * What one c_reset draws: the course reset_rings generates, the drone
   * size and the successive candidate spawn points of the rejection loop.
   */
  datatype ResetDraws = ResetDraws(course: seq<Ring>, size: real, spawns: seq<Vec3>)

  /**
   * The spawn loop accepts a point at distance at least 2 * RingRadius from
   * the target; the target itself is never accepted.
   */
  predicate FarEnough(p: Vec3, target: Vec3)
    ensures FarEnough(p, target) ==> p != target
  {
    SquaredNorm(Sub(p, target)) >= MinSpawnDistSq
  }

  /**
   * Draws a reset can be run on: a full course, a size in rndf's range,
   * a drone whose limits are positive and, among the candidates, at least
   * one spawn the loop accepts (termination of the sampling itself is a
   * property of the random source).
   */
  predicate DrawsOk(port: FlightDynamics, draws: ResetDraws, maxRings: int) {
    && maxRings >= 1
    && |draws.course| == maxRings
    && MinDroneSize <= draws.size <= MaxDroneSize
    && ParamsPositive(port.initDrone(draws.size, DroneMass).params)
    && exists i :: 0 <= i < |draws.spawns| && FarEnough(draws.spawns[i], draws.course[0].pos)
  }

  /** Index of the spawn the do-while loop ends on: the first accepted candidate. */
  function FirstAccepted(spawns: seq<Vec3>, target: Vec3): (k: nat)
    requires exists i :: 0 <= i < |spawns| && FarEnough(spawns[i], target)
    ensures k < |spawns| && FarEnough(spawns[k], target)
    ensures forall j :: 0 <= j < k ==> !FarEnough(spawns[j], target)
    decreases |spawns|
  {
    if FarEnough(spawns[0], target) then 0
    else
      assert exists i :: 0 <= i < |spawns[1..]| && FarEnough(spawns[1..][i], target) by {
        var i :| 0 <= i < |spawns| && FarEnough(spawns[i], target);
        assert spawns[1..][i - 1] == spawns[i];
      }
      1 + FirstAccepted(spawns[1..], target)
  }

  /** The drone c_reset leaves: freshly initialised, placed at the accepted spawn, not moving yet. */
  function SpawnedDrone(port: FlightDynamics, draws: ResetDraws): (d: Drone)
    requires |draws.course| >= 1
    requires exists i :: 0 <= i < |draws.spawns| && FarEnough(draws.spawns[i], draws.course[0].pos)
    ensures FarEnough(d.state.pos, draws.course[0].pos) && d.prevPos == d.state.pos
    ensures d.params == port.initDrone(draws.size, DroneMass).params
  {
    var d := port.initDrone(draws.size, DroneMass);
    var p := draws.spawns[FirstAccepted(draws.spawns, draws.course[0].pos)];
    d.(state := d.state.(pos := p), prevPos := p)
  }

  /**
   * The do-while rejection loop of c_reset: candidates are tried in order
   * until one is far enough from ring 0.
   */
  method SampleSpawn(spawns: seq<Vec3>, target: Vec3) returns (pos: Vec3, k: nat)
    requires exists i :: 0 <= i < |spawns| && FarEnough(spawns[i], target)
    ensures k < |spawns| && pos == spawns[k] && FarEnough(pos, target)
    ensures forall j :: 0 <= j < k ==> !FarEnough(spawns[j], target)
    ensures k == FirstAccepted(spawns, target)
  {
    k := 0;
    pos := spawns[0];
    while !FarEnough(pos, target)
      invariant k < |spawns| && pos == spawns[k]
      invariant forall j :: 0 <= j < k ==> !FarEnough(spawns[j], target)
      invariant exists i :: k <= i < |spawns| && FarEnough(spawns[i], target)
      decreases |spawns| - k
    {
      k := k + 1;
      pos := spawns[k];
    }
    var f := FirstAccepted(spawns, target);
    assert !(f < k) && !(k < f);
  }

  // ---------------------------------------------------------------------
  // Observation encoding
  // ---------------------------------------------------------------------

  /** Ring read as "next" by compute_observations: ringIdx % maxRings. */
  function NextRingIndex(ringIdx: int, maxRings: int): (k: int)
    requires ringIdx >= 0 && maxRings >= 1
    ensures 0 <= k < maxRings
    ensures ringIdx < maxRings ==> k == ringIdx
  {
    ringIdx % maxRings
  }

  /**
   * compute_observations: 29 features in a fixed order. Slots 0..2 and
   * 6..8 are the vectors to the current and the "next" ring in the body
   * frame, divided by the half-extents; 3..5 and 9..11 those rings'
   * normals in the body frame; 12..14 body-frame velocity over maxVel;
   * 15..17 angular rate over maxOmega; 18..20 the body z-axis rotated
   * into the world; 21..24 the quaternion; 25..28 rotor speeds over maxRpm.
   * Because the "next" ring is ringIdx % |rings|, which is ringIdx while
   * the index is valid, the next-ring block repeats the current-ring block.
   */
  function Observe(port: FlightDynamics, grid: Vec3, d: Drone, rings: seq<Ring>, ringIdx: int): (obs: seq<real>)
    requires 0 <= ringIdx < |rings|
    requires GridOk(grid) && ParamsPositive(d.params)
    ensures |obs| == ObsSize
    ensures obs[6..12] == obs[0..6]
  {
    var qInv := port.quatInverse(d.state.quat);
    var curr := rings[ringIdx];
    var next := rings[NextRingIndex(ringIdx, |rings|)];
    assert next == curr;
    var currBlock := RingFeatures(port, grid, qInv, curr, d.state.pos);
    var nextBlock := RingFeatures(port, grid, qInv, next, d.state.pos);
    var obs := currBlock + nextBlock + BodyFeatures(port, d, qInv);
    assert obs[0..6] == currBlock && obs[6..12] == nextBlock;
    obs
  }

  /**
   * Slots of one ring: the vector from the drone to the ring centre in the
   * body frame, divided by the half-extents, then the ring's normal in the
   * body frame. `qInv` is the inverse of the drone's orientation.
   */
  function RingFeatures(port: FlightDynamics, grid: Vec3, qInv: Quat, ring: Ring, pos: Vec3): seq<real>
    requires GridOk(grid)
  {
    var toRing := port.quatRotate(qInv, Sub(ring.pos, pos));
    var ringNorm := port.quatRotate(qInv, ring.normal);
    [toRing.x / grid.x, toRing.y / grid.y, toRing.z / grid.z, ringNorm.x, ringNorm.y, ringNorm.z]
  }

  /**
   * Slots of the drone itself: body-frame velocity over maxVel, angular
   * rate over maxOmega, the body z-axis in the world frame, the quaternion
   * and the rotor speeds over maxRpm.
   */
  function BodyFeatures(port: FlightDynamics, d: Drone, qInv: Quat): seq<real>
    requires ParamsPositive(d.params)
  {
    var s := d.state;
    var p := d.params;
    var linearVelBody := port.quatRotate(qInv, s.vel);
    var droneUpWorld := port.quatRotate(s.quat, Vec3(0.0, 0.0, 1.0));
    [ linearVelBody.x / p.maxVel, linearVelBody.y / p.maxVel, linearVelBody.z / p.maxVel,
      s.omega.x / p.maxOmega, s.omega.y / p.maxOmega, s.omega.z / p.maxOmega,
      droneUpWorld.x, droneUpWorld.y, droneUpWorld.z,
      s.quat.w, s.quat.x, s.quat.y, s.quat.z,
      s.rpms.r0 / p.maxRpm, s.rpms.r1 / p.maxRpm, s.rpms.r2 / p.maxRpm, s.rpms.r3 / p.maxRpm ]
  }

  // ---------------------------------------------------------------------
  // The discrete bookkeeping of an episode
  // ---------------------------------------------------------------------

  /** The integer and return counters of the running episode. */
  datatype Episode = Episode(tick: int, score: int, episodicReturn: real, ringIdx: int, movesLeft: int)

  /** Counters right after c_reset: no tick, no ring passed, the whole move budget left. */
  function NewEpisode(maxMoves: int): Episode {
    Episode(0, 0, 0.0, 0, maxMoves)
  }

  /** Between steps: a valid ring index, a non-empty move budget, and counters in step. */
  predicate EpisodeInv(e: Episode, maxRings: int, maxMoves: int) {
    && 0 <= e.ringIdx < maxRings
    && 1 <= e.movesLeft <= maxMoves
    && e.tick + e.movesLeft == maxMoves
    && e.score == e.ringIdx
  }

  /** A freshly reset episode is valid for any course and any move budget. */
  lemma NewEpisodeValid(maxRings: int, maxMoves: int)
    requires maxRings >= 1 && maxMoves >= 1
    ensures EpisodeInv(NewEpisode(maxMoves), maxRings, maxMoves)
  {
  }

  /** Running sums over the episodes ended since the log was last read. */
  datatype Log = Log(
    perf: real, score: real, episodeReturn: real, episodeLength: real,
    n: real, oob: real, collisionRate: real, timeout: real)

  const ZeroLog := Log(0.0, 0.0, 0.0, 0.0, 0.0, 0.0, 0.0, 0.0)

  /**
   * What the sums can be: at most one outcome flag per logged episode,
   * a completed fraction of at most 1 and a length of at most maxMoves
   * per episode.
   */
  predicate LogInv(log: Log, maxMoves: int) {
    && 0.0 <= log.oob && 0.0 <= log.collisionRate && 0.0 <= log.timeout
    && log.oob + log.collisionRate + log.timeout <= log.n
    && 0.0 <= log.perf <= log.n
    && 0.0 <= log.episodeLength <= log.n * (maxMoves as real)
    && 0.0 <= log.score
  }

  /** add_log on values: the ended episode and its three outcome flags join the sums. */
  function Logged(log: Log, e: Episode, maxRings: int, oob: real, collision: real, timeout: real): (r: Log)
    requires maxRings >= 1
    ensures r.n == log.n + 1.0
    ensures 0 <= e.ringIdx <= maxRings ==> log.perf <= r.perf <= log.perf + 1.0
    ensures r.oob - log.oob == oob && r.collisionRate - log.collisionRate == collision
    ensures r.timeout - log.timeout == timeout
  {
    FractionInUnit(e.ringIdx, maxRings);
    Log(
      log.perf + e.ringIdx as real / maxRings as real,
      log.score + e.score as real,
      log.episodeReturn + e.episodicReturn,
      log.episodeLength + e.tick as real,
      log.n + 1.0,
      log.oob + oob,
      log.collisionRate + collision,
      log.timeout + timeout)
  }

  /** The completed fraction add_log adds to perf lies in [0, 1]. */
  lemma FractionInUnit(k: int, n: int)
    requires n >= 1
    ensures 0 <= k <= n ==> 0.0 <= k as real / n as real <= 1.0
  {
  }


  /**
   * Logging one episode that ran at most maxMoves ticks, passed at most
   * all rings and raised at most one outcome flag keeps the log's sums
   * consistent.
   */
  lemma LoggedKeepsLogInv(log: Log, e: Episode, maxRings: int, maxMoves: int, oob: real, collision: real, timeout: real)
    requires maxRings >= 1 && LogInv(log, maxMoves)
    requires 0 <= e.ringIdx <= maxRings && 0 <= e.tick <= maxMoves && e.score >= 0
    requires 0.0 <= oob && 0.0 <= collision && 0.0 <= timeout && oob + collision + timeout <= 1.0
    ensures LogInv(Logged(log, e, maxRings, oob, collision, timeout), maxMoves)
  {
  }

  /** Which of c_step's four exits ran. */
  datatype Outcome = OutOfBounds | Collision | Truncation | Running

  datatype StepResult = StepResult(episode: Episode, log: Log, reward: real, terminal: bv8, outcome: Outcome)

  /**
   * c_step on the bookkeeping alone. `outOfBounds` is the bounds test on
   * the position after move_drone; `ringReward` is check_ring's value
   * against the current ring (ignored when out of bounds, as c_step
   * never calls it then). log.score is cleared at the start of the step.
   */
  function StepSpec(e: Episode, log: Log, maxRings: int, maxMoves: int, outOfBounds: bool, ringReward: real): (t: StepResult)
    requires maxRings >= 1
    // exactly one exit, and the terminal flag marks the three that end the episode
    ensures t.terminal == (if t.outcome == Running then 0 else 1)
    ensures t.reward == if outOfBounds then -1.0 else ringReward
  {
    var e1 := e.(tick := e.tick + 1);
    var log0 := log.(score := 0.0);
    if outOfBounds then
      var e2 := e1.(episodicReturn := e1.episodicReturn - 1.0);
      StepResult(NewEpisode(maxMoves), Logged(log0, e2, maxRings, 1.0, 0.0, 0.0), -1.0, 1, OutOfBounds)
    else
      RingOutcome(e1.(episodicReturn := e1.episodicReturn + ringReward), log0, maxRings, maxMoves, ringReward)
  }

  /**
   * The rest of a step once the drone is inside the flight volume and the
   * ring reward is known: `e` already counts the tick and the reward, and
   * `log` has its score cleared. A hit ends the episode; otherwise a passed
   * ring is counted, a move is used up, and the episode is truncated when
   * the moves or the rings run out.
   */
  function RingOutcome(e: Episode, log: Log, maxRings: int, maxMoves: int, ringReward: real): (t: StepResult)
    requires maxRings >= 1
    ensures t.terminal == (if t.outcome == Running then 0 else 1)
    ensures t.reward == ringReward
  {
    if ringReward < 0.0 then
      StepResult(NewEpisode(maxMoves), Logged(log, e, maxRings, 0.0, 1.0, 0.0), ringReward, 1, Collision)
    else
      var e3 := if ringReward > 0.0 then e.(score := e.score + 1, ringIdx := e.ringIdx + 1) else e;
      var e4 := e3.(movesLeft := e3.movesLeft - 1);
      if e4.movesLeft == 0 || e4.ringIdx == maxRings then
        var timeout := if e4.movesLeft == 0 then 1.0 else 0.0;
        StepResult(NewEpisode(maxMoves), Logged(log, e4, maxRings, 0.0, 0.0, timeout), ringReward, 1, Truncation)
      else
        StepResult(e4, log, ringReward, 0, Running)
  }

  /**
   * What one step does, exit by exit: which exit is taken, how the
   * counters move on, and what is added to the log.
   */
  lemma StepOutcome(e: Episode, log: Log, maxRings: int, maxMoves: int, outOfBounds: bool, ringReward: real, t: StepResult)
    requires maxRings >= 1 && t == StepSpec(e, log, maxRings, maxMoves, outOfBounds, ringReward)
    // exactly one exit
    ensures t.outcome == OutOfBounds <==> outOfBounds
    ensures t.outcome == Collision <==> !outOfBounds && ringReward < 0.0
    ensures !outOfBounds && ringReward >= 0.0 ==>
              (t.outcome == Truncation <==>
                 e.movesLeft - 1 == 0 || e.ringIdx + (if ringReward > 0.0 then 1 else 0) == maxRings)
    // an ended episode is replaced by a fresh one
    ensures t.outcome != Running ==> t.episode == NewEpisode(maxMoves)
    // a continuing episode: one more tick, one move fewer, a passed ring counted
    ensures t.outcome == Running ==>
              && t.episode.tick == e.tick + 1
              && t.episode.movesLeft == e.movesLeft - 1
              && t.episode.ringIdx == e.ringIdx + (if ringReward > 0.0 then 1 else 0)
              && t.episode.score == e.score + (if ringReward > 0.0 then 1 else 0)
              && t.episode.episodicReturn == e.episodicReturn + ringReward
    // the log: one entry per ended episode, at most one outcome flag each
    ensures t.log.n == log.n + (if t.outcome == Running then 0.0 else 1.0)
    ensures t.log.oob == log.oob + (if t.outcome == OutOfBounds then 1.0 else 0.0)
    ensures t.log.collisionRate == log.collisionRate + (if t.outcome == Collision then 1.0 else 0.0)
    ensures t.log.timeout == log.timeout + (if t.outcome == Truncation && e.movesLeft == 1 then 1.0 else 0.0)
    ensures t.log.episodeReturn == log.episodeReturn + (if t.outcome == Running then 0.0 else e.episodicReturn + t.reward)
    ensures t.log.episodeLength == log.episodeLength + (if t.outcome == Running then 0.0 else (e.tick + 1) as real)
    ensures t.log.perf == log.perf +
              if t.outcome == Running then 0.0
              else (e.ringIdx + (if t.outcome == Truncation && ringReward > 0.0 then 1 else 0)) as real / maxRings as real
    // log.score holds only the score of an episode that ended in this step
    ensures t.log.score ==
              if t.outcome == Running then 0.0
              else if t.outcome == Truncation then (e.score + (if ringReward > 0.0 then 1 else 0)) as real
              else e.score as real
  {
  }

  /** A step from a valid episode leads to a valid episode, whichever exit it takes. */
  lemma StepKeepsEpisodeInv(e: Episode, log: Log, maxRings: int, maxMoves: int, outOfBounds: bool, ringReward: real)
    requires maxRings >= 1 && EpisodeInv(e, maxRings, maxMoves)
    ensures EpisodeInv(StepSpec(e, log, maxRings, maxMoves, outOfBounds, ringReward).episode, maxRings, maxMoves)
  {
  }

  /**
   * A step keeps the log's sums consistent: at most one outcome flag and
   * at most one completed course per logged episode, and episode lengths
   * within the move budget.
   */
  lemma StepKeepsLogInv(e: Episode, log: Log, maxRings: int, maxMoves: int, outOfBounds: bool, ringReward: real)
    requires maxRings >= 1 && EpisodeInv(e, maxRings, maxMoves) && LogInv(log, maxMoves)
    ensures var t := StepSpec(e, log, maxRings, maxMoves, outOfBounds, ringReward);
      && LogInv(t.log, maxMoves)
      && log.perf <= t.log.perf <= log.perf + 1.0
  {
  }


  /** The inputs c_step's branching depends on. */
  datatype StepInput = StepInput(outOfBounds: bool, ringReward: real)

  datatype RunResult = RunResult(episode: Episode, log: Log, ended: nat)

  /** A sequence of steps, counting the episodes that ended. */
  function Run(e: Episode, log: Log, maxRings: int, maxMoves: int, inputs: seq<StepInput>): RunResult
    requires maxRings >= 1
    decreases |inputs|
  {
    if inputs == [] then RunResult(e, log, 0)
    else
      var t := StepSpec(e, log, maxRings, maxMoves, inputs[0].outOfBounds, inputs[0].ringReward);
      var rest := Run(t.episode, t.log, maxRings, maxMoves, inputs[1..]);
      rest.(ended := rest.ended + (if t.outcome == Running then 0 else 1))
  }

  /**
   * Over any run the invariants hold after every step, and log.n grows by
   * exactly the number of episodes that ended.
   */
  lemma {:induction false} RunKeepsInvariants(e: Episode, log: Log, maxRings: int, maxMoves: int, inputs: seq<StepInput>)
    requires maxRings >= 1
    requires EpisodeInv(e, maxRings, maxMoves) && LogInv(log, maxMoves)
    ensures var r := Run(e, log, maxRings, maxMoves, inputs);
      && EpisodeInv(r.episode, maxRings, maxMoves) && LogInv(r.log, maxMoves)
      && r.log.n == log.n + r.ended as real
      && r.ended <= |inputs|
    decreases |inputs|
  {
    if inputs != [] {
      var t := StepSpec(e, log, maxRings, maxMoves, inputs[0].outOfBounds, inputs[0].ringReward);
      StepKeepsEpisodeInv(e, log, maxRings, maxMoves, inputs[0].outOfBounds, inputs[0].ringReward);
      StepKeepsLogInv(e, log, maxRings, maxMoves, inputs[0].outOfBounds, inputs[0].ringReward);
      RunKeepsInvariants(t.episode, t.log, maxRings, maxMoves, inputs[1..]);
    }
  }

  /**
   * Completing the course: the step that passes the last ring ends the
   * episode with all three outcome flags unchanged and logs the full score.
   */
  lemma CourseCompletion(e: Episode, log: Log, maxRings: int, maxMoves: int, ringReward: real)
    requires maxRings >= 1 && EpisodeInv(e, maxRings, maxMoves)
    requires e.ringIdx == maxRings - 1 && e.movesLeft > 1 && ringReward > 0.0
    ensures var t := StepSpec(e, log, maxRings, maxMoves, false, ringReward);
      && t.outcome == Truncation && t.terminal == 1
      && t.log.oob == log.oob && t.log.collisionRate == log.collisionRate && t.log.timeout == log.timeout
      && t.log.score == maxRings as real
  {
  }

  /**
   * Passing the last ring on the last move: the move budget reaches 0 in the
   * same step, so the completed course is logged as a timeout, with the
   * full score and a perf increment of 1.
   */
  lemma CourseCompletedOnLastMove(e: Episode, log: Log, maxRings: int, maxMoves: int, ringReward: real)
    requires maxRings >= 1 && EpisodeInv(e, maxRings, maxMoves)
    requires e.ringIdx == maxRings - 1 && e.movesLeft == 1 && ringReward > 0.0
    ensures var t := StepSpec(e, log, maxRings, maxMoves, false, ringReward);
      && t.outcome == Truncation && t.terminal == 1
      && t.log.timeout == log.timeout + 1.0
      && t.log.oob == log.oob && t.log.collisionRate == log.collisionRate
      && t.log.score == maxRings as real
      && t.log.perf == log.perf + 1.0
  {
    var t := StepSpec(e, log, maxRings, maxMoves, false, ringReward);
    var n := maxRings as real;
    assert t.log.perf == log.perf + n / n;
    assert n / n * n == 1.0 * n;
  }

  // ---------------------------------------------------------------------
  // The environment object
  // ---------------------------------------------------------------------

  /**
   * One race environment. The observation, action, reward and terminal
   * buffers are shared with the host; the ring buffer holds the course and
   * is overwritten on every reset.
   */
  class DroneRace {
    const observations: array<real>
    const actions: array<real>
    const rewards: array<real>
    const terminals: array<bv8>

    var log: Log
    var tick: int
    var score: int
    var episodicReturn: real

    const maxRings: int
    var ringIdx: int
    const ringBuffer: array<Ring>

    const maxMoves: int
    var movesLeft: int

    var drone: Drone

    const port: FlightDynamics
    /** GRID_X, GRID_Y, GRID_Z: half-extents of the flight volume. */
    const grid: Vec3

    /** Buffers of the right sizes and a configuration the step can run on. */
    ghost predicate Allocated() {
      && maxRings >= 1 && maxMoves >= 1 && GridOk(grid)
      && ringBuffer.Length == maxRings
      && observations.Length == ObsSize && actions.Length == ActionCount
      && rewards.Length == 1 && terminals.Length == 1
      && observations != actions && observations != rewards && actions != rewards
      && terminals as object != observations as object && terminals as object != rewards as object
      && terminals as object != actions as object && terminals as object != ringBuffer as object
      && ringBuffer as object != observations as object && ringBuffer as object != rewards as object
      && ringBuffer as object != actions as object
    }

    function CurrentEpisode(): Episode
      reads this
    {
      Episode(tick, score, episodicReturn, ringIdx, movesLeft)
    }

    /** The state between two steps. */
    ghost predicate Valid()
      reads this
    {
      && Allocated()
      && EpisodeInv(CurrentEpisode(), maxRings, maxMoves)
      && LogInv(log, maxMoves)
      && ParamsPositive(drone.params)
    }

    /** The observation buffer describes the current drone and course. */
    ghost predicate ObservationsFresh()
      reads this, observations, ringBuffer
      requires Valid()
    {
      observations[..] == Observe(port, grid, drone, ringBuffer[..], ringIdx)
    }

    /**
     * init: an empty log, tick 0 and a ring buffer of maxRings entries;
     * the host's buffers are allocated here too. The episode itself is
     * set up by the first Reset.
     */
    constructor (maxRings: int, maxMoves: int, port: FlightDynamics, grid: Vec3)
      requires maxRings >= 1 && maxMoves >= 1 && GridOk(grid)
      ensures Allocated() && log == ZeroLog && tick == 0
      ensures this.maxRings == maxRings && this.maxMoves == maxMoves
      ensures this.port == port && this.grid == grid
      ensures fresh(ringBuffer) && fresh(observations) && fresh(actions)
      ensures fresh(rewards) && fresh(terminals)
    {
      this.maxRings := maxRings;
      this.maxMoves := maxMoves;
      this.port := port;
      this.grid := grid;
      observations := new real[ObsSize](_ => 0.0);
      actions := new real[ActionCount](_ => 0.0);
      rewards := new real[1](_ => 0.0);
      terminals := new bv8[1](_ => 0);
      log := ZeroLog;
      tick := 0;
      ringBuffer := new Ring[maxRings](_ => Ring(Vec3(0.0, 0.0, 0.0), Vec3(0.0, 0.0, 0.0), 0.0));
      score := 0;
      episodicReturn := 0.0;
      ringIdx := 0;
      movesLeft := 0;
      var zero := Vec3(0.0, 0.0, 0.0);
      drone := Drone(DroneState(zero, zero, zero, Quat(0.0, 0.0, 0.0, 0.0), Rotors(0.0, 0.0, 0.0, 0.0)),
                     DroneParams(0.0, 0.0, 0.0), zero);
    }

    /** add_log: the current episode and the given outcome flags join the log's sums. */
    method AddLog(oob: real, collision: real, timeout: real)
      requires maxRings >= 1
      modifies this`log
      ensures log == Logged(old(log), CurrentEpisode(), maxRings, oob, collision, timeout)
    {
      log := log.(
        score := log.score + score as real,
        episodeReturn := log.episodeReturn + episodicReturn,
        episodeLength := log.episodeLength + tick as real,
        perf := log.perf + ringIdx as real / maxRings as real,
        oob := log.oob + oob,
        collisionRate := log.collisionRate + collision,
        timeout := log.timeout + timeout,
        n := log.n + 1.0);
    }

    /** compute_observations: the observation buffer is rewritten from the drone and the rings. */
    method ComputeObservations()
      requires Allocated() && 0 <= ringIdx < maxRings && ParamsPositive(drone.params)
      modifies observations
      ensures observations[..] == Observe(port, grid, drone, ringBuffer[..], ringIdx)
    {
      var qInv := port.quatInverse(drone.state.quat);
      var currRing := ringBuffer[ringIdx];
      var nextRing := ringBuffer[ringIdx % maxRings];
      var features := RingFeatures(port, grid, qInv, currRing, drone.state.pos)
                    + RingFeatures(port, grid, qInv, nextRing, drone.state.pos)
                    + BodyFeatures(port, drone, qInv);
      forall i | 0 <= i < ObsSize {
        observations[i] := features[i];
      }
    }

    /** reset_rings: the newly generated course overwrites the ring buffer in place. */
    method ResetRings(course: seq<Ring>)
      requires |course| == ringBuffer.Length
      modifies ringBuffer
      ensures ringBuffer[..] == course
    {
      forall i | 0 <= i < ringBuffer.Length {
        ringBuffer[i] := course[i];
      }
    }

    /**
     * c_reset: fresh counters and a fresh course, a newly initialised
     * drone placed at the first accepted spawn, and observations for the
     * new episode. The log is kept.
     */
    method Reset(draws: ResetDraws)
      requires Allocated() && LogInv(log, maxMoves) && DrawsOk(port, draws, maxRings)
      modifies this, ringBuffer, observations
      ensures Valid() && ObservationsFresh()
      ensures CurrentEpisode() == NewEpisode(maxMoves) && log == old(log)
      ensures ringBuffer[..] == draws.course
      ensures drone == SpawnedDrone(port, draws)
      ensures FarEnough(drone.state.pos, ringBuffer[0].pos) && drone.prevPos == drone.state.pos
    {
      tick := 0;
      score := 0;
      episodicReturn := 0.0;
      movesLeft := maxMoves;

      ringIdx := 0;
      ResetRings(draws.course);

      var d := port.initDrone(draws.size, DroneMass);
      var spawn, _ := SampleSpawn(draws.spawns, ringBuffer[0].pos);
      drone := d.(state := d.state.(pos := spawn), prevPos := spawn);

      ComputeObservations();
    }

    /**
     * The epilogue every terminal branch of c_step shares: raise the
     * terminal flag, log the ended episode with its outcome flags and
     * start a new one.
     */
    method EndEpisode(oob: real, collision: real, timeout: real, draws: ResetDraws)
      requires Allocated() && DrawsOk(port, draws, maxRings)
      requires LogInv(Logged(log, CurrentEpisode(), maxRings, oob, collision, timeout), maxMoves)
      modifies this, ringBuffer, observations, terminals
      ensures Valid() && ObservationsFresh() && terminals[0] == 1
      ensures log == Logged(old(log), old(CurrentEpisode()), maxRings, oob, collision, timeout)
      ensures CurrentEpisode() == NewEpisode(maxMoves)
      ensures drone == SpawnedDrone(port, draws) && ringBuffer[..] == draws.course
    {
      terminals[0] := 1;
      AddLog(oob, collision, timeout);
      Reset(draws);
    }

    /**
     * The out-of-bounds exit of c_step: a penalty of one, the episode is
     * logged with its out-of-bounds flag and reset with `draws`, and the
     * observations are computed once more for the new episode. `t` is the
     * step's result as StepSpec gives it.
     */
    method FlewOut(draws: ResetDraws, ghost t: StepResult)
      requires Allocated() && DrawsOk(port, draws, maxRings) && LogInv(t.log, maxMoves)
      requires t == StepResult(NewEpisode(maxMoves),
        Logged(log, CurrentEpisode().(episodicReturn := episodicReturn - 1.0), maxRings, 1.0, 0.0, 0.0), -1.0, 1, OutOfBounds)
      modifies this, ringBuffer, observations, rewards, terminals
      ensures Valid() && ObservationsFresh()
      ensures CurrentEpisode() == t.episode && log == t.log
      ensures rewards[0] == old(rewards[0]) + t.reward && terminals[0] == t.terminal
      ensures drone == SpawnedDrone(port, draws) && ringBuffer[..] == draws.course
    {
      rewards[0] := rewards[0] - 1.0;
      episodicReturn := episodicReturn - 1.0;
      EndEpisode(1.0, 0.0, 0.0, draws);
      ComputeObservations();
    }

    /**
     * The end of c_step, from the ring check on: count a passed ring or end
     * the episode on a hit, use up a move, truncate when the moves or the
     * rings run out, and otherwise remember the position and recompute the
     * observations. The reward itself is booked by the caller; `t` is the
     * step's result as RingOutcome gives it.
     */
    method FinishStep(reward: real, draws: ResetDraws, ghost t: StepResult)
      requires Allocated() && DrawsOk(port, draws, maxRings) && ParamsPositive(drone.params)
      requires t == RingOutcome(CurrentEpisode(), log, maxRings, maxMoves, reward)
      requires EpisodeInv(t.episode, maxRings, maxMoves) && LogInv(t.log, maxMoves)
      modifies this, ringBuffer, observations, terminals
      ensures Valid() && ObservationsFresh()
      ensures CurrentEpisode() == t.episode && log == t.log
      ensures terminals[0] == (if t.outcome == Running then old(terminals[0]) else t.terminal)
      ensures t.outcome == Running ==>
        drone == old(drone).(prevPos := old(drone).state.pos) && ringBuffer[..] == old(ringBuffer[..])
      ensures t.outcome != Running ==> drone == SpawnedDrone(port, draws) && ringBuffer[..] == draws.course
    {
      if reward > 0.0 {
        score := score + 1;
        ringIdx := ringIdx + 1;
      } else if reward < 0.0 {
        EndEpisode(0.0, 1.0, 0.0, draws);
        return;
      }

      movesLeft := movesLeft - 1;
      if movesLeft == 0 || ringIdx == maxRings {
        EndEpisode(0.0, 0.0, if movesLeft == 0 then 1.0 else 0.0, draws);
        return;
      }

      drone := drone.(prevPos := drone.state.pos);
      ComputeObservations();
    }

    /**
     * c_step: one tick of the episode, proved to follow StepSpec on the
     * bookkeeping. On a terminal exit the episode is reset in place with
     * `draws`; otherwise the drone keeps its moved state, remembers its
     * position, and the observations are recomputed. Either way the
     * observations returned describe the episode now running.
     */
    method Step(draws: ResetDraws)
      requires Valid() && DrawsOk(port, draws, maxRings)
      modifies this, ringBuffer, observations, rewards, terminals
      ensures Valid() && ObservationsFresh()
      ensures var moved := old(drone).(state := port.moveDrone(old(drone), old(actions[..])));
        var t := StepSpec(old(CurrentEpisode()), old(log), maxRings, maxMoves,
                          LeftFlightVolume(moved.state.pos, grid), port.checkRing(moved, old(ringBuffer[ringIdx])));
        && CurrentEpisode() == t.episode && log == t.log
        && rewards[0] == t.reward && terminals[0] == t.terminal
        && (t.outcome == Running ==>
              drone == moved.(prevPos := moved.state.pos) && ringBuffer[..] == old(ringBuffer[..]))
        && (t.outcome != Running ==>
              drone == SpawnedDrone(port, draws) && ringBuffer[..] == draws.course)
    {
      ghost var moved := drone.(state := port.moveDrone(drone, actions[..]));
      ghost var leftVolume := LeftFlightVolume(moved.state.pos, grid);
      ghost var ringReward := port.checkRing(moved, ringBuffer[ringIdx]);
      ghost var t := StepSpec(CurrentEpisode(), log, maxRings, maxMoves, leftVolume, ringReward);
      StepKeepsEpisodeInv(CurrentEpisode(), log, maxRings, maxMoves, leftVolume, ringReward);
      StepKeepsLogInv(CurrentEpisode(), log, maxRings, maxMoves, leftVolume, ringReward);

      tick := tick + 1;
      rewards[0] := 0.0;
      terminals[0] := 0;
      log := log.(score := 0.0);

      drone := drone.(state := port.moveDrone(drone, actions[..]));

      var outOfBounds := LeftFlightVolume(drone.state.pos, grid);

      if outOfBounds {
        FlewOut(draws, t);
        return;
      }

      var ring := ringBuffer[ringIdx];
      var reward := port.checkRing(drone, ring);
      rewards[0] := rewards[0] + reward;
      episodicReturn := episodicReturn + reward;
      FinishStep(reward, draws, t);
    }

    /**
     * Two resets in a row, with any two sets of draws, end exactly where one
     * reset with the second draws ends: the first leaves no trace but the
     * log, which neither touches.
     */
    method ResetTwice(first: ResetDraws, second: ResetDraws)
      requires Allocated() && LogInv(log, maxMoves)
      requires DrawsOk(port, first, maxRings) && DrawsOk(port, second, maxRings)
      modifies this, ringBuffer, observations
      ensures Valid() && ObservationsFresh() && CurrentEpisode() == NewEpisode(maxMoves) && log == old(log)
      ensures drone == SpawnedDrone(port, second) && ringBuffer[..] == second.course
    {
      Reset(first);
      ghost var afterFirst := CurrentEpisode();
      Reset(second);
      assert CurrentEpisode() == afterFirst;
    }
  }
}
