/**
 * The generic simulator environment of simulator/env.h: a fixed-capacity
 * buffer of per-episode logs that is averaged and emptied on request, small
 * numeric helpers, vector arithmetic in R^3 and the reset of the toy
 * environment's fields. Floats are modelled as reals (no rounding).
 */
module SimEnv {

  // ---------------------------------------------------------------------
  // Per-episode log records
  // ---------------------------------------------------------------------

  /** One completed episode's statistics. */
  datatype Log = Log(episodeReturn: real, episodeLength: real, score: real)

  const ZeroLog := Log(0.0, 0.0, 0.0)

  /** Capacity the environment allocates for its log buffer. */
  const LogBufferSize := 1024

  /** Names of the three fields, so that one lemma can speak of any of them. */
  datatype Field = EpisodeReturn | EpisodeLength | Score

  function Get(l: Log, f: Field): real {
    match f
    case EpisodeReturn => l.episodeReturn
    case EpisodeLength => l.episodeLength
    case Score => l.score
  }

  function Plus(a: Log, b: Log): Log {
    Log(a.episodeReturn + b.episodeReturn, a.episodeLength + b.episodeLength, a.score + b.score)
  }

  /** Field-wise sum of a sequence of logs, accumulated front to back. */
  function SumLogs(s: seq<Log>): (r: Log)
    ensures |s| == 1 ==> r == s[0]
  {
    if s == [] then ZeroLog else Plus(SumLogs(s[..|s| - 1]), s[|s| - 1])
  }

  /** sum / n, characterised by multiplication. */
  function Mean(sum: real, n: nat): (m: real)
    requires n > 0
    ensures m * (n as real) == sum
  {
    sum / n as real
  }

  /** Field-wise mean of a non-empty sequence of logs. */
  function Average(s: seq<Log>): Log
    requires |s| > 0
  {
    var total := SumLogs(s);
    Log(Mean(total.episodeReturn, |s|), Mean(total.episodeLength, |s|), Mean(total.score, |s|))
  }

  /** Summing is compatible with concatenation. */
  lemma {:induction false} SumLogsAppend(a: seq<Log>, b: seq<Log>)
    ensures SumLogs(a + b) == Plus(SumLogs(a), SumLogs(b))
    decreases |b|
  {
    if b == [] {
      assert a + b == a;
    } else {
      var b' := b[..|b| - 1];
      assert (a + b)[..|a + b| - 1] == a + b';
      SumLogsAppend(a, b');
    }
  }

  /** k copies of x added up (k * x, without a product of two unknowns). */
  function Repeat(k: nat, x: real): real {
    if k == 0 then 0.0 else Repeat(k - 1, x) + x
  }

  lemma {:induction false} RepeatIsProduct(k: nat, x: real)
    ensures Repeat(k, x) == (k as real) * x
  {
    if k > 0 {
      RepeatIsProduct(k - 1, x);
      MulSucc((k - 1) as real, x);
    }
  }

  lemma MulSucc(n: real, x: real)
    ensures (n + 1.0) * x == n * x + x
  {
  }

  /** When every entry's field lies in [lo, hi], the sum lies between |s| copies of lo and of hi. */
  lemma {:induction false} SumLogsBounds(s: seq<Log>, f: Field, lo: real, hi: real)
    requires forall i :: 0 <= i < |s| ==> lo <= Get(s[i], f) <= hi
    ensures Repeat(|s|, lo) <= Get(SumLogs(s), f) <= Repeat(|s|, hi)
    decreases |s|
  {
    if s != [] {
      var s' := s[..|s| - 1];
      assert Get(SumLogs(s), f) == Get(SumLogs(s'), f) + Get(s[|s| - 1], f);
      forall i | 0 <= i < |s'| ensures lo <= Get(s'[i], f) <= hi {
        assert s'[i] == s[i];
      }
      SumLogsBounds(s', f, lo, hi);
    }
  }

  /** The average of entries whose field lies in [lo, hi] lies in [lo, hi]. */
  lemma AverageBounds(s: seq<Log>, f: Field, lo: real, hi: real)
    requires |s| > 0
    requires forall i :: 0 <= i < |s| ==> lo <= Get(s[i], f) <= hi
    ensures lo <= Get(Average(s), f) <= hi
  {
    var sum := Get(SumLogs(s), f);
    assert (|s| as real) * lo <= sum <= (|s| as real) * hi by {
      SumLogsBounds(s, f, lo, hi);
      RepeatIsProduct(|s|, lo);
      RepeatIsProduct(|s|, hi);
    }
    MeanBounds(sum, |s|, lo, hi);
  }

  /** A sum between n copies of lo and of hi has its mean in [lo, hi]. */
  lemma MeanBounds(sum: real, n: nat, lo: real, hi: real)
    requires n > 0
    requires (n as real) * lo <= sum <= (n as real) * hi
    ensures lo <= Mean(sum, n) <= hi
  {
  }

  // ---------------------------------------------------------------------
  // The bounded log buffer
  // ---------------------------------------------------------------------

  /**
   * A fixed-capacity append-only buffer: entries [0, idx) are filled; once
   * full, further logs are dropped silently.
   */
  class LogBuffer {
    const logs: array<Log>
    const length: int
    var idx: int

    ghost predicate Valid()
      reads this
    {
      logs.Length == length && 0 <= idx <= length
    }

    /** The logs recorded since the last aggregation, oldest first. */
    ghost function Contents(): seq<Log>
      reads this, logs
      requires Valid()
    {
      logs[..idx]
    }

    /** allocate_logbuffer: zero-filled storage for `size` logs, none recorded. */
    constructor (size: int)
      requires size >= 0
      ensures Valid() && fresh(logs)
      ensures length == size && idx == 0
      ensures forall i :: 0 <= i < size ==> logs[i] == ZeroLog
    {
      logs := new Log[size](_ => ZeroLog);
      length := size;
      idx := 0;
    }

    /** add_log: store `log` in the next free slot, or do nothing when full. */
    method AddLog(log: Log)
      requires Valid()
      modifies this`idx, logs
      ensures Valid()
      ensures old(idx) == length ==> idx == old(idx) && logs[..] == old(logs[..])
      ensures old(idx) < length ==>
                idx == old(idx) + 1 && logs[..] == old(logs[..])[old(idx) := log]
      ensures Contents() == if old(idx) == length then old(Contents()) else old(Contents()) + [log]
    {
      if idx == length {
        return;
      }
      logs[idx] := log;
      idx := idx + 1;
    }

    /**
     * aggregate_and_clear: the field-wise mean of the recorded logs (all
     * zero when there are none); the buffer is emptied by resetting idx,
     * the stored entries themselves are left in place.
     */
    method AggregateAndClear() returns (r: Log)
      requires Valid()
      modifies this`idx
      ensures Valid() && idx == 0
      ensures old(idx) == 0 ==> r == ZeroLog
      ensures old(idx) > 0 ==> r == Average(logs[..old(idx)])
    {
      var log := ZeroLog;
      if idx == 0 {
        return log;
      }
      var i := 0;
      while i < idx
        invariant 0 <= i <= idx
        invariant log == SumLogs(logs[..i])
      {
        assert logs[..i + 1][..i] == logs[..i];
        log := Plus(log, logs[i]);
        i := i + 1;
      }
      assert logs[..idx] == logs[..i];
      log := Log(Mean(log.episodeReturn, idx), Mean(log.episodeLength, idx), Mean(log.score, idx));
      idx := 0;
      return log;
    }
  }

  // ---------------------------------------------------------------------
  // Scalar helpers
  // ---------------------------------------------------------------------

  /** clampf: v limited to [min, max] (min wins if the range is empty). */
  function Clampf(v: real, min: real, max: real): (r: real)
    ensures r == v || r == min || r == max
    ensures min <= max ==> min <= r <= max
    ensures min <= v <= max ==> r == v
    ensures v < min ==> r == min
  {
    if v < min then min
    else if v > max then max
    else v
  }

  lemma ClampfIdempotent(v: real, min: real, max: real)
    requires min <= max
    ensures Clampf(Clampf(v, min, max), min, max) == Clampf(v, min, max)
  {
  }

  /**
   * rndf: maps a draw `roll` of rand() (in [0, randMax]) linearly onto [a, b].
   */
  function Rndf(a: real, b: real, roll: int, randMax: int): (r: real)
    requires randMax > 0
    ensures a <= b && 0 <= roll <= randMax ==> a <= r <= b
    ensures roll == 0 ==> r == a
    ensures roll == randMax ==> r == b
  {
    var t := roll as real / randMax as real;
    a + t * (b - a)
  }



  /** C's `%` on int: truncates toward zero, so the remainder takes the dividend's sign. */
  function CRem(x: int, m: int): (r: int)
    requires m != 0
    ensures x >= 0 ==> 0 <= r < if m > 0 then m else -m
    ensures x < 0 ==> -(if m > 0 then m else -m) < r <= 0
  {
    var am := if m > 0 then m else -m;
    if x >= 0 then x % am else -((-x) % am)
  }

  /** rndi: an integer in [a, b] from a draw `roll` of rand(). */
  function Rndi(a: int, b: int, roll: int): (r: int)
    requires b - a + 1 != 0
    ensures b >= a && roll >= 0 ==> a <= r <= b
    ensures a == b ==> r == a
  {
    a + CRem(roll, b - a + 1)
  }

  // ---------------------------------------------------------------------
  // Vector arithmetic in R^3 (float[3] in the C code)
  // ---------------------------------------------------------------------

  type Vec = s: seq<real> | |s| == 3 witness [0.0, 0.0, 0.0]

  /** dot3: the scalar product; a vector's product with itself is never negative. */
  function Dot3(a: Vec, b: Vec): (r: real)
    ensures a == b ==> r >= 0.0
  {
    a[0] * b[0] + a[1] * b[1] + a[2] * b[2]
  }

  function CrossProduct(a: Vec, b: Vec): Vec {
    [a[1] * b[2] - a[2] * b[1], a[2] * b[0] - a[0] * b[2], a[0] * b[1] - a[1] * b[0]]
  }

  function VecAdd(a: Vec, b: Vec): Vec {
    [a[0] + b[0], a[1] + b[1], a[2] + b[2]]
  }

  function VecSub(a: Vec, b: Vec): Vec {
    [a[0] - b[0], a[1] - b[1], a[2] - b[2]]
  }

  function VecScale(a: Vec, s: real): Vec {
    [a[0] * s, a[1] * s, a[2] * s]
  }

  /** The cross product is orthogonal to both of its factors. */
  lemma CrossProductOrthogonal(a: Vec, b: Vec)
    ensures Dot3(a, CrossProduct(a, b)) == 0.0
    ensures Dot3(b, CrossProduct(a, b)) == 0.0
  {
  }

  /** Subtracting undoes adding. */
  lemma SubUndoesAdd(a: Vec, b: Vec)
    ensures VecSub(VecAdd(a, b), b) == a
  {
  }

  /** cross3: writes a x b into out (which must not be one of the factors). */
  method Cross3(a: array<real>, b: array<real>, out: array<real>)
    requires a.Length == 3 && b.Length == 3 && out.Length == 3
    requires out != a && out != b
    modifies out
    ensures out[..] == CrossProduct(a[..], b[..])
  {
    out[0] := a[1] * b[2] - a[2] * b[1];
    out[1] := a[2] * b[0] - a[0] * b[2];
    out[2] := a[0] * b[1] - a[1] * b[0];
    forall i | 0 <= i < 3 ensures out[..][i] == CrossProduct(a[..], b[..])[i] {
    }
  }

  /** add3: out := a + b, component by component (out may alias a or b). */
  method Add3(a: array<real>, b: array<real>, out: array<real>)
    requires a.Length == 3 && b.Length == 3 && out.Length == 3
    modifies out
    ensures out[..] == VecAdd(old(a[..]), old(b[..]))
  {
    out[0] := a[0] + b[0];
    out[1] := a[1] + b[1];
    out[2] := a[2] + b[2];
  }

  /** sub3: out := a - b, component by component (out may alias a or b). */
  method Sub3(a: array<real>, b: array<real>, out: array<real>)
    requires a.Length == 3 && b.Length == 3 && out.Length == 3
    modifies out
    ensures out[..] == VecSub(old(a[..]), old(b[..]))
  {
    out[0] := a[0] - b[0];
    out[1] := a[1] - b[1];
    out[2] := a[2] - b[2];
  }

  /** scalmul3: out := s * a (out may alias a). */
  method Scalmul3(a: array<real>, s: real, out: array<real>)
    requires a.Length == 3 && out.Length == 3
    modifies out
    ensures out[..] == VecScale(old(a[..]), s)
  {
    ghost var a0: Vec := a[..];
    out[0] := a[0] * s;
    out[1] := a[1] * s;
    out[2] := a[2] * s;
    forall i | 0 <= i < 3 ensures out[..][i] == VecScale(a0, s)[i] {
    }
  }

  // ---------------------------------------------------------------------
  // The environment's own fields
  // ---------------------------------------------------------------------

  /**
   * Three successive rndf(-10, 10) draws, one per axis: a point of the
   * box [-10, 10]^3 whenever the rand() results lie in [0, randMax].
   */
  function UniformPoint(rolls: seq<int>, randMax: int): (p: Vec)
    requires |rolls| == 3 && randMax > 0
    ensures (forall i :: 0 <= i < 3 ==> 0 <= rolls[i] <= randMax) ==>
              forall i :: 0 <= i < 3 ==> -10.0 <= p[i] <= 10.0
  {
    [Rndf(-10.0, 10.0, rolls[0], randMax), Rndf(-10.0, 10.0, rolls[1], randMax), Rndf(-10.0, 10.0, rolls[2], randMax)]
  }

  const GridSize := 10.0
  /** 1 / GridSize, the scale applied to coordinates in the observations. */
  const InvGridSize: real := 0.1
  const ObsCount := 8

  /**
   * The toy environment: a drone, a move target and a look target in a
   * 20^3 box. The observation and I/O buffers are separate allocations
   * (arrays); the three float[3] members live inside the struct and are
   * modelled as vector values.
   */
  class Drone {
    const observations: array<real>
    const actions: array<real>
    const rewards: array<real>
    const terminals: array<bv8>
    const logBuffer: LogBuffer
    var log: Log
    var tick: int

    var nTargets: int
    var movesLeft: int
    var pos: Vec
    var yaw: real
    var moveTarget: Vec
    var lookTarget: Vec

    /** sin and cos of the C math library, which are not part of this model. */
    const sine: real -> real
    const cosine: real -> real

    ghost predicate Valid()
      reads this, logBuffer
    {
      && observations.Length == ObsCount && actions.Length == 3
      && rewards.Length == 1 && terminals.Length == 1
      && observations != actions && observations != rewards
      && logBuffer.Valid() && logBuffer.length == LogBufferSize
    }

    /**
     * Slots 0..5 hold the move target and the position scaled by 1/GridSize,
     * slots 6 and 7 the sine and cosine of the yaw.
     */
    ghost predicate ObservationsFresh()
      reads this, observations
      requires observations.Length == ObsCount
    {
      observations[..] == VecScale(moveTarget, InvGridSize) + VecScale(pos, InvGridSize) + [sine(yaw), cosine(yaw)]
    }

    /** allocate (with init): zeroed buffers and an empty log buffer of LogBufferSize. */
    constructor (sine: real -> real, cosine: real -> real)
      ensures Valid() && tick == 0 && this.sine == sine && this.cosine == cosine
      ensures fresh(observations) && fresh(actions) && fresh(rewards) && fresh(terminals)
      ensures fresh(logBuffer) && fresh(logBuffer.logs) && logBuffer.idx == 0
      ensures observations[..] == seq(ObsCount, _ => 0.0)
    {
      tick := 0;
      observations := new real[ObsCount](_ => 0.0);
      actions := new real[3](_ => 0.0);
      rewards := new real[1](_ => 0.0);
      terminals := new bv8[1](_ => 0);
      logBuffer := new LogBuffer(LogBufferSize);
      log := ZeroLog;
      nTargets := 0;
      movesLeft := 0;
      yaw := 0.0;
      pos := [0.0, 0.0, 0.0];
      moveTarget := [0.0, 0.0, 0.0];
      lookTarget := [0.0, 0.0, 0.0];
      this.sine := sine;
      this.cosine := cosine;
    }

    /**
     * compute_observations: move target and position scaled by 1/GridSize
     * into slots 0..5, then the sine and cosine of the yaw into slots 6 and 7.
     */
    method ComputeObservations()
      requires Valid()
      modifies observations
      ensures ObservationsFresh()
    {
      var scaledMoveTarget: seq<real> := VecScale(moveTarget, InvGridSize);
      observations[0] := scaledMoveTarget[0];
      observations[1] := scaledMoveTarget[1];
      observations[2] := scaledMoveTarget[2];

      var scaledPos: seq<real> := VecScale(pos, InvGridSize);
      observations[3] := scaledPos[0];
      observations[4] := scaledPos[1];
      observations[5] := scaledPos[2];

      observations[6] := sine(yaw);
      observations[7] := cosine(yaw);
      assert observations[..] == scaledMoveTarget + scaledPos + [sine(yaw), cosine(yaw)];
    }

    /**
     * c_reset: clears the log, sets the episode constants and draws the
     * position and both targets uniformly in [-10, 10]^3 (see UniformPoint).
     * `rolls` are the nine successive results of rand().
     */
    method Reset(rolls: seq<int>, randMax: int)
      requires Valid()
      requires randMax > 0 && |rolls| == 9
      modifies this, observations
      ensures Valid() && ObservationsFresh()
      ensures log == ZeroLog && nTargets == 5 && movesLeft == 1500 && yaw == 0.0
      ensures tick == old(tick)
      ensures pos == UniformPoint(rolls[0..3], randMax)
      ensures moveTarget == UniformPoint(rolls[3..6], randMax)
      ensures lookTarget == UniformPoint(rolls[6..9], randMax)
    {
      log := ZeroLog;

      nTargets := 5;
      movesLeft := 1500;
      yaw := 0.0;

      pos := UniformPoint(rolls[0..3], randMax);
      moveTarget := UniformPoint(rolls[3..6], randMax);
      lookTarget := UniformPoint(rolls[6..9], randMax);

      ComputeObservations();
    }

    /** c_step: only refreshes the observations. */
    method Step()
      requires Valid()
      modifies observations
      ensures ObservationsFresh()
    {
      ComputeObservations();
    }
  }
}
