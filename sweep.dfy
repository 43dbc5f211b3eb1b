/**
 * The scan sweep: a triangle wave over the servo angle. Each scan step
 * commands the current angle, advances it by ten degrees in the current
 * direction, and reverses the direction once the new angle reaches either
 * end of [0, 180].
 */
module Sweep {

  /** Degrees added to the angle per scan step. */
  const SWEEP_STEP: int := 10
  const MIN_ANGLE: int := 0
  const MAX_ANGLE: int := 180
  /** Number of scan steps after which the sweep repeats. */
  const PERIOD: nat := 36

  /** The sweep generator's state: the global angle and direction. */
  datatype SweepState = SweepState(angle: int, direction: int)

  /** The state the program starts in: angle 0, increasing. */
  const Initial: SweepState := SweepState(0, 1)

  /** The state after one scan step (the angle commanded is `s.angle`). */
  function Step(s: SweepState): SweepState
  {
    var next := s.angle + SWEEP_STEP * s.direction;
    if next >= MAX_ANGLE || next <= MIN_ANGLE then SweepState(next, -s.direction)
    else SweepState(next, s.direction)
  }

  /** The state after `n` scan steps from `s`. */
  function Iterate(s: SweepState, n: nat): SweepState
  {
    if n == 0 then s else Step(Iterate(s, n - 1))
  }

  /** A set of states containing every state reachable from `Initial`
      (`IterateReachable`): a multiple of ten in [0, 180],
      a unit direction, and the direction pointing inwards at either end. */
  predicate Reachable(s: SweepState)
  {
    && MIN_ANGLE <= s.angle <= MAX_ANGLE
    && s.angle % SWEEP_STEP == 0
    && (s.direction == 1 || s.direction == -1)
    && (s.angle == MIN_ANGLE ==> s.direction == 1)
    && (s.angle == MAX_ANGLE ==> s.direction == -1)
  }

  /** One scan step changes the angle by exactly ten degrees in the current
      direction, and negates the direction exactly when the new angle is at
      or beyond either end. */
  lemma StepMoves(s: SweepState)
    requires s.direction != 0
    ensures Step(s).angle == s.angle + SWEEP_STEP * s.direction
    ensures Step(s).direction == -s.direction <==> Step(s).angle >= MAX_ANGLE || Step(s).angle <= MIN_ANGLE
    ensures Step(s).direction == s.direction <==> MIN_ANGLE < Step(s).angle < MAX_ANGLE
  {
  }

  /** A scan step keeps a reachable state reachable. */
  lemma StepPreservesReachable(s: SweepState)
    requires Reachable(s)
    ensures Reachable(Step(s))
  {
  }

  /** Every state reached from `Initial` is reachable, so every scan command
      lies in [0, 180]. */
  lemma {:induction false} IterateReachable(n: nat)
    ensures Reachable(Iterate(Initial, n))
    ensures MIN_ANGLE <= Iterate(Initial, n).angle <= MAX_ANGLE
  {
    if n > 0 {
      IterateReachable(n - 1);
      StepPreservesReachable(Iterate(Initial, n - 1));
    }
  }

  /** Closed form of the sweep: the angle commanded on scan step `k`. It
      climbs 0, 10, ..., 180 and falls back to 10, then repeats. */
  function Triangle(k: nat): (a: int)
    ensures MIN_ANGLE <= a <= MAX_ANGLE && a % SWEEP_STEP == 0
  {
    var m := k % PERIOD;
    if m <= PERIOD / 2 then SWEEP_STEP * m else SWEEP_STEP * (PERIOD - m)
  }

  /** Closed form of the direction after `k` steps: rising in the first half
      of each period, falling in the second. */
  function TriangleDirection(k: nat): int
  {
    if k % PERIOD < PERIOD / 2 then 1 else -1
  }

  /** One step advances the phase within the period, wrapping at its end. */
  lemma NextPhase(k: nat)
    ensures (k + 1) % PERIOD == if k % PERIOD == PERIOD - 1 then 0 else k % PERIOD + 1
  {
  }

  /** A full period leaves the phase unchanged. */
  lemma SamePhase(k: nat)
    ensures (k + PERIOD) % PERIOD == k % PERIOD
  {
  }

  /** The sweep started from `Initial` is exactly the triangle wave: after
      `k` steps the angle is `Triangle(k)` and the direction is
      `TriangleDirection(k)`. In particular it has period 36. */
  lemma {:induction false} IterateIsTriangle(k: nat)
    ensures Iterate(Initial, k) == SweepState(Triangle(k), TriangleDirection(k))
  {
    if k > 0 {
      IterateIsTriangle(k - 1);
      NextPhase(k - 1);
    }
  }

  /** The sweep returns to its starting state after each full period. */
  lemma SweepIsPeriodic(k: nat)
    ensures Iterate(Initial, k + PERIOD) == Iterate(Initial, k)
  {
    IterateIsTriangle(k);
    IterateIsTriangle(k + PERIOD);
    SamePhase(k);
    assert Triangle(k + PERIOD) == Triangle(k);
  }

  /** The bound depends on starting on the 10-degree grid: from angle 5
      falling, the next scan command is -5, outside [0, 180]. */
  lemma OffGridStartLeavesRange()
    ensures Step(SweepState(5, -1)) == SweepState(-5, 1)
    ensures Step(SweepState(5, -1)).angle < MIN_ANGLE
  {
  }
}
