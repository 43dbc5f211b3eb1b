/**
 * The tracking controller: the state shared by the main loop and the
 * detector callback, the callback itself, one cycle of the main loop, and
 * the loop run over an interleaving of callbacks and cycles.
 *
 * The servo is abstracted to the log of angles passed to `set_angle`, and
 * the LED to a boolean. The detector's asynchronous callback is an event
 * that runs between two cycles.
 */
module Controller {
  import opened Geometry
  import opened Sweep
  import opened Deadband

  /** A batch counts towards the lock when it holds at least this many detections. */
  const LOCK_DETECTIONS: nat := 2
  /** The loop tracks once this many qualifying batches have arrived. */
  const LOCK_THRESHOLD: nat := 2

  /** The branch a cycle of the main loop takes. */
  datatype Branch = Scan | Track

  /** What may happen next: a detector callback delivering a batch, or one
      cycle of the main loop. */
  datatype Event = Callback(batch: Batch) | Tick

  function BranchFor(count: nat): Branch
  {
    if count < LOCK_THRESHOLD then Scan else Track
  }

  function Increment(batch: Batch): nat
  {
    if |batch| >= LOCK_DETECTIONS then 1 else 0
  }

  /** Number of batches holding at least two detections. */
  function QualifyingCount(batches: seq<Batch>): (n: nat)
    ensures n <= |batches|
  {
    if batches == [] then 0 else Increment(batches[0]) + QualifyingCount(batches[1..])
  }

  /** The batches delivered by the callbacks among `events`, in order. */
  function Callbacks(events: seq<Event>): seq<Batch>
  {
    if events == [] then []
    else match events[0]
      case Callback(b) => [b] + Callbacks(events[1..])
      case Tick => Callbacks(events[1..])
  }

  /** Number of main-loop cycles among `events`. */
  function Ticks(events: seq<Event>): nat
  {
    if events == [] then 0
    else (if events[0].Tick? then 1 else 0) + Ticks(events[1..])
  }

  /** The detection count after one event. */
  function CountStep(count: nat, e: Event): nat
  {
    match e
    case Callback(b) => count + Increment(b)
    case Tick => count
  }

  /** The branch taken by one event: one entry for a cycle, none for a callback. */
  function BranchStep(count: nat, e: Event): seq<Branch>
  {
    match e
    case Callback(_) => []
    case Tick => [BranchFor(count)]
  }

  /** The detection count after `events`, starting from `count`. */
  function CountAfter(count: nat, events: seq<Event>): nat
    decreases |events|
  {
    if events == [] then count
    else CountAfter(CountStep(count, events[0]), events[1..])
  }

  /** The branch each cycle among `events` takes, starting from `count`. */
  function Branches(count: nat, events: seq<Event>): seq<Branch>
    decreases |events|
  {
    if events == [] then []
    else BranchStep(count, events[0]) + Branches(CountStep(count, events[0]), events[1..])
  }

  /** Sequence concatenation is associative. */
  lemma AppendAssoc<T>(a: seq<T>, b: seq<T>, c: seq<T>)
    ensures (a + b) + c == a + (b + c)
  {
  }

  /** The count grows by exactly one per callback batch holding at least
      two detections, and by nothing else. */
  lemma {:induction false} CountAfterCountsQualifying(count: nat, events: seq<Event>)
    ensures CountAfter(count, events) == count + QualifyingCount(Callbacks(events))
    ensures CountAfter(count, events) >= count
    decreases |events|
  {
    if events != [] {
      match events[0]
      case Callback(b) =>
        CountAfterCountsQualifying(count + Increment(b), events[1..]);
        assert Callbacks(events) == [b] + Callbacks(events[1..]);
        assert ([b] + Callbacks(events[1..]))[1..] == Callbacks(events[1..]);
      case Tick =>
        CountAfterCountsQualifying(count, events[1..]);
    }
  }

  /** One branch is recorded per cycle. */
  lemma {:induction false} BranchesPerTick(count: nat, events: seq<Event>)
    ensures |Branches(count, events)| == Ticks(events)
    decreases |events|
  {
    if events != [] {
      match events[0]
      case Callback(b) => BranchesPerTick(count + Increment(b), events[1..]);
      case Tick => BranchesPerTick(count, events[1..]);
    }
  }

  /** Once the count has reached the threshold every cycle tracks. */
  lemma {:induction false} LockedStaysTracking(count: nat, events: seq<Event>)
    requires count >= LOCK_THRESHOLD
    ensures forall i :: 0 <= i < |Branches(count, events)| ==> Branches(count, events)[i] == Track
    decreases |events|
  {
    if events != [] {
      match events[0]
      case Callback(b) => LockedStaysTracking(count + Increment(b), events[1..]);
      case Tick => LockedStaysTracking(count, events[1..]);
    }
  }

  /** Tracking latches: once a cycle tracks, every later cycle tracks too;
      there is no way back to scanning. */
  lemma {:induction false} TrackingLatches(count: nat, events: seq<Event>, i: nat, j: nat)
    requires i < j < |Branches(count, events)|
    requires Branches(count, events)[i] == Track
    ensures Branches(count, events)[j] == Track
    decreases |events|
  {
    match events[0]
    case Callback(b) =>
      TrackingLatches(count + Increment(b), events[1..], i, j);
    case Tick =>
      var rest := Branches(count, events[1..]);
      assert Branches(count, events) == [BranchFor(count)] + rest;
      if i == 0 {
        LockedStaysTracking(count, events[1..]);
        assert rest[j - 1] == Track;
      } else {
        TrackingLatches(count, events[1..], i - 1, j - 1);
      }
  }

  /** With no qualifying batch ever delivered, a loop that starts below the
      threshold scans on every cycle. */
  lemma {:induction false} NoLockKeepsScanning(count: nat, events: seq<Event>)
    requires QualifyingCount(Callbacks(events)) + count < LOCK_THRESHOLD
    ensures forall i :: 0 <= i < |Branches(count, events)| ==> Branches(count, events)[i] == Scan
    decreases |events|
  {
    if events != [] {
      match events[0]
      case Callback(b) =>
        assert Callbacks(events) == [b] + Callbacks(events[1..]);
        assert ([b] + Callbacks(events[1..]))[1..] == Callbacks(events[1..]);
        NoLockKeepsScanning(count + Increment(b), events[1..]);
      case Tick =>
        NoLockKeepsScanning(count, events[1..]);
    }
  }

  /** The count after a concatenated trace is the count after its second
      part, started from the count after its first. */
  lemma {:induction false} CountAfterAppend(count: nat, a: seq<Event>, b: seq<Event>)
    ensures CountAfter(count, a + b) == CountAfter(CountAfter(count, a), b)
    decreases |a|
  {
    if a != [] {
      assert (a + b)[0] == a[0] && (a + b)[1..] == a[1..] + b;
      CountAfterAppend(CountStep(count, a[0]), a[1..], b);
    } else {
      assert a + b == b;
    }
  }

  /** The branches of a concatenated trace are those of its first part
      followed by those of its second, started from the count the first
      part leaves. */
  lemma {:induction false} BranchesAppend(count: nat, a: seq<Event>, b: seq<Event>)
    ensures Branches(count, a + b) == Branches(count, a) + Branches(CountAfter(count, a), b)
    decreases |a|
  {
    if a != [] {
      assert (a + b)[0] == a[0] && (a + b)[1..] == a[1..] + b;
      BranchesAppend(CountStep(count, a[0]), a[1..], b);
      AppendAssoc(BranchStep(count, a[0]), Branches(CountStep(count, a[0]), a[1..]),
                  Branches(CountAfter(count, a), b));
    } else {
      assert a + b == b;
    }
  }

  /** The whole program state as a value: sweep position, LED, angles sent
      to the servo, pending batches and detection count. */
  datatype State = State(sweep: SweepState, led: bool, commands: seq<int>, pending: seq<Batch>, count: nat)

  /** The state at start-up. */
  const Start: State := State(Initial, false, [], [], 0)

  /** The state after one cycle of the main loop. */
  function CycleState(s: State, frame: Point): State
  {
    if s.count < LOCK_THRESHOLD then
      s.(sweep := Step(s.sweep), commands := s.commands + [s.sweep.angle])
    else if s.pending != [] then
      s.(led := true, commands := s.commands + BatchCommands(s.sweep.angle, s.pending[0], frame), pending := [])
    else
      s.(led := false)
  }

  /** The state after one event. */
  function EventState(s: State, e: Event, frame: Point): State
  {
    match e
    case Callback(b) => s.(pending := s.pending + [b], count := s.count + Increment(b))
    case Tick => CycleState(s, frame)
  }

  /** The state after `events`, in order. */
  function RunState(s: State, events: seq<Event>, frame: Point): State
    decreases |events|
  {
    if events == [] then s else RunState(EventState(s, events[0], frame), events[1..], frame)
  }

  /** The state fold agrees with the count fold: its count is the start
      count plus one per qualifying callback batch. */
  lemma {:induction false} RunStateCount(s: State, events: seq<Event>, frame: Point)
    ensures RunState(s, events, frame).count == CountAfter(s.count, events)
    ensures RunState(s, events, frame).count == s.count + QualifyingCount(Callbacks(events))
    decreases |events|
  {
    if events != [] {
      RunStateCount(EventState(s, events[0], frame), events[1..], frame);
    }
    CountAfterCountsQualifying(s.count, events);
  }

  /** While the loop scans, the tracking fields are untouched: the LED
      stays as it was and every batch delivered is still pending, in
      arrival order; the log grows by exactly one scan command per cycle. */
  lemma {:induction false} ScanningKeepsBatches(s: State, events: seq<Event>, frame: Point)
    requires CountAfter(s.count, events) < LOCK_THRESHOLD
    ensures RunState(s, events, frame).led == s.led
    ensures RunState(s, events, frame).pending == s.pending + Callbacks(events)
    ensures |RunState(s, events, frame).commands| == |s.commands| + Ticks(events)
    decreases |events|
  {
    if events != [] {
      var s' := EventState(s, events[0], frame);
      CountAfterCountsQualifying(s'.count, events[1..]);
      ScanningKeepsBatches(s', events[1..], frame);
      match events[0]
      case Callback(b) =>
        AppendAssoc(s.pending, [b], Callbacks(events[1..]));
      case Tick =>
    }
  }

  /** A tracking cycle drains the list: whatever was pending, nothing is
      pending afterwards, and the LED shows whether a batch was consumed. */
  lemma TrackingCycleDrains(s: State, frame: Point)
    requires s.count >= LOCK_THRESHOLD
    ensures CycleState(s, frame).pending == []
    ensures CycleState(s, frame).led <==> s.pending != []
    ensures CycleState(s, frame).sweep == s.sweep
    ensures CycleState(s, frame).commands ==
              s.commands + (if s.pending == [] then [] else BatchCommands(s.sweep.angle, s.pending[0], frame))
  {
  }

  /**
   * The program state: the servo globals, the LED, the angles sent to the
   * servo so far, and the pending result list and detection count shared
   * by the main loop and the detector callback.
   */
  class Tracker {
    var servoAngle: int
    var servoDirection: int
    var led: bool
    /** Every angle passed to `set_angle`, oldest first. */
    var commands: seq<int>
    /** Result batches delivered and not yet consumed, oldest first. */
    var pending: seq<Batch>
    /** Number of delivered batches holding at least two detections. */
    var detectionCount: nat
    const frameCenter: Point

    function SweepPosition(): SweepState
      reads this
    {
      SweepState(servoAngle, servoDirection)
    }

    /** The object's state as a value. */
    function Abstract(): State
      reads this
    {
      State(SweepPosition(), led, commands, pending, detectionCount)
    }

    /** The sweep state is one the sweep reaches from its start, and while
        the loop is still scanning the LED is off and every angle sent to
        the servo lies in [0, 180]. */
    ghost predicate Valid()
      reads this
    {
      && Reachable(SweepPosition())
      && (detectionCount < LOCK_THRESHOLD ==>
            && !led
            && forall i :: 0 <= i < |commands| ==> MIN_ANGLE <= commands[i] <= MAX_ANGLE)
    }

    /** The state at start-up for a `width` x `height` frame. */
    constructor (width: int, height: int)
      ensures Valid() && SweepPosition() == Initial
      ensures !led && commands == [] && pending == [] && detectionCount == 0
      ensures Abstract() == Start
      ensures frameCenter == FrameCenter(width, height)
    {
      servoAngle, servoDirection := 0, 1;
      led := false;
      commands := [];
      pending := [];
      detectionCount := 0;
      frameCenter := FrameCenter(width, height);
    }

    /** Command the servo to `angle`; `servoAngle` is left as it was. */
    method SetAngle(angle: int)
      modifies this`commands
      ensures commands == old(commands) + [angle]
    {
      commands := commands + [angle];
    }

    method SetLed(on: bool)
      modifies this`led
      ensures led == on
    {
      led := on;
    }

    /** One scan step: command the current angle, then advance the sweep. */
    method MoveServoContinuous()
      modifies this`servoAngle, this`servoDirection, this`commands
      ensures commands == old(commands) + [old(servoAngle)]
      ensures SweepPosition() == Step(old(SweepPosition()))
      ensures old(Valid()) ==> Valid() && MIN_ANGLE <= old(servoAngle) <= MAX_ANGLE
    {
      SetAngle(servoAngle);
      servoAngle := servoAngle + SWEEP_STEP * servoDirection;
      if servoAngle >= MAX_ANGLE || servoAngle <= MIN_ANGLE {
        servoDirection := -servoDirection;
      }
      if old(Valid()) {
        StepPreservesReachable(old(SweepPosition()));
      }
    }

    /** Nudge the servo towards a box centre; the servo globals are only read. */
    method MoveServoToCenter(box: Point)
      modifies this`commands
      ensures commands == old(commands) + CenterCommands(servoAngle, box, frameCenter)
    {
      if Abs(box.x - frameCenter.x) > TOLERANCE {
        if box.x < frameCenter.x {
          SetAngle(servoAngle - NUDGE);
        } else {
          SetAngle(servoAngle + NUDGE);
        }
      }
      if Abs(box.y - frameCenter.y) > TOLERANCE {
        if box.y < frameCenter.y {
          SetAngle(servoAngle + NUDGE);
        } else {
          SetAngle(servoAngle - NUDGE);
        }
      }
    }

    /** The detector callback: append the batch and count it when it holds
        at least two detections. */
    method SaveResult(batch: Batch)
      modifies this`pending, this`detectionCount
      ensures pending == old(pending) + [batch]
      ensures detectionCount == old(detectionCount) + 1 <==> |batch| >= LOCK_DETECTIONS
      ensures detectionCount == old(detectionCount) <==> |batch| < LOCK_DETECTIONS
      ensures old(Valid()) ==> Valid()
    {
      pending := pending + [batch];
      if |batch| >= LOCK_DETECTIONS {
        detectionCount := detectionCount + 1;
      }
    }

    /** Correct towards every detection of `batch`, in batch order, each
        relative to the same frozen servo angle. */
    method TrackBatch(batch: Batch)
      modifies this`commands
      ensures commands == old(commands) + BatchCommands(servoAngle, batch, frameCenter)
    {
      var i := 0;
      while i < |batch|
        invariant 0 <= i <= |batch|
        invariant commands == old(commands) + BatchCommands(servoAngle, batch[..i], frameCenter)
      {
        ghost var done := BatchCommands(servoAngle, batch[..i], frameCenter);
        MoveServoToCenter(BoxCenter(batch[i]));
        BatchCommandsStep(servoAngle, batch, i, frameCenter);
        AppendAssoc(old(commands), done, DetectionCommands(servoAngle, batch[i], frameCenter));
        i := i + 1;
      }
      assert batch[..|batch|] == batch;
    }

    /** The tracking branch: act on the oldest pending batch only, then
        light the LED and drop the whole list, so newer batches are never
        acted on; with nothing pending, turn the LED off. */
    method TrackPending()
      modifies this`commands, this`led, this`pending
      ensures pending == []
      ensures old(pending) != [] ==>
                led && commands == old(commands) + BatchCommands(servoAngle, old(pending)[0], frameCenter)
      ensures old(pending) == [] ==> !led && commands == old(commands)
    {
      if pending != [] {
        TrackBatch(pending[0]);
        SetLed(true);
        pending := [];
      } else {
        SetLed(false);
      }
    }

    /** One cycle of the main loop. Scanning steps the sweep and leaves the
        list and the LED alone; tracking leaves the sweep frozen and runs
        the tracking branch. */
    method Cycle() returns (branch: Branch)
      modifies this`servoAngle, this`servoDirection, this`commands, this`led, this`pending
      ensures branch == BranchFor(detectionCount)
      ensures old(Valid()) ==> Valid()
      ensures branch == Scan ==>
                && commands == old(commands) + [old(servoAngle)]
                && SweepPosition() == Step(old(SweepPosition()))
                && pending == old(pending) && led == old(led)
      ensures branch == Scan && old(Valid()) ==> MIN_ANGLE <= commands[|commands| - 1] <= MAX_ANGLE
      ensures branch == Track ==> SweepPosition() == old(SweepPosition()) && pending == []
      ensures branch == Track && old(pending) != [] ==>
                led && commands == old(commands) + BatchCommands(servoAngle, old(pending)[0], frameCenter)
      ensures branch == Track && old(pending) == [] ==> !led && commands == old(commands)
    {
      if detectionCount < LOCK_THRESHOLD {
        branch := Scan;
        MoveServoContinuous();
      } else {
        branch := Track;
        TrackPending();
      }
    }

    /** Let one event happen: a detector callback or one cycle. Returns
        the branch the cycle took, if it was one. */
    method Dispatch(e: Event) returns (taken: seq<Branch>)
      modifies this`servoAngle, this`servoDirection, this`commands, this`led, this`pending, this`detectionCount
      ensures taken == BranchStep(old(detectionCount), e)
      ensures Abstract() == EventState(old(Abstract()), e, frameCenter)
      ensures detectionCount == CountStep(old(detectionCount), e)
      ensures e.Callback? ==>
                && pending == old(pending) + [e.batch]
                && commands == old(commands) && led == old(led)
                && SweepPosition() == old(SweepPosition())
      ensures old(Valid()) ==> Valid()
    {
      match e {
        case Callback(b) =>
          SaveResult(b);
          taken := [];
        case Tick =>
          var branch := Cycle();
          taken := [branch];
      }
    }

    /** The main loop over an interleaving of detector callbacks and cycles.
        Returns the branch each cycle took. */
    method Run(events: seq<Event>) returns (branches: seq<Branch>)
      modifies this`servoAngle, this`servoDirection, this`commands, this`led, this`pending, this`detectionCount
      ensures branches == Branches(old(detectionCount), events)
      ensures Abstract() == RunState(old(Abstract()), events, frameCenter)
      ensures detectionCount == CountAfter(old(detectionCount), events)
      ensures old(Valid()) ==> Valid()
    {
      branches := [];
      var k := 0;
      while k < |events|
        invariant 0 <= k <= |events|
        invariant branches + Branches(detectionCount, events[k..]) == Branches(old(detectionCount), events)
        invariant RunState(Abstract(), events[k..], frameCenter) == RunState(old(Abstract()), events, frameCenter)
        invariant CountAfter(detectionCount, events[k..]) == CountAfter(old(detectionCount), events)
        invariant old(Valid()) ==> Valid()
        decreases |events| - k
      {
        assert events[k..][0] == events[k] && events[k..][1..] == events[k + 1..];
        var taken := Dispatch(events[k]);
        AppendAssoc(branches, taken, Branches(detectionCount, events[k + 1..]));
        branches := branches + taken;
        k := k + 1;
      }
      assert events[|events|..] == [];
    }
  }
  /** Three callbacks arrive before the first cycle: two batches of two
      detections, then one centred at (200, 240) in a 640 x 480 frame. The
      first cycle tracks, acts on the oldest batch only (its second box,
      centred at (50, 50), nudges down then up around angle 0, so one
      command is -5), drops the newest batch unprocessed and lights the LED.
      The next cycle finds the list empty and turns the LED off. */
  method StaleBatchScenario() returns (first: Branch, issued: seq<int>, ledAfterFirst: bool, ledAfterSecond: bool)
    ensures first == Track
    ensures issued == [-5, 5]
    ensures ledAfterFirst && !ledAfterSecond
  {
    var t := new Tracker(640, 480);
    t.SaveResult([Detection(300, 220, 40, 40), Detection(0, 0, 100, 100)]);
    t.SaveResult([Detection(0, 0, 10, 10), Detection(600, 400, 10, 10)]);
    t.SaveResult([Detection(180, 220, 40, 40)]);
    first := t.Cycle();
    issued := t.commands;
    ledAfterFirst := t.led;
    var second := t.Cycle();
    ledAfterSecond := t.led;
    assert t.commands == issued;
  }

  /** Tracking nudges are taken around the angle the last scan step left
      behind, one sweep step past the last commanded scan angle: one scan
      from start-up commands 0 and leaves the angle at 10, so a tracked
      batch of two boxes centred at (5, 5) commands 5, 15, 5, 15. */
  method FrozenAngleScenario() returns (issued: seq<int>)
    ensures issued == [0, 5, 15, 5, 15]
  {
    var t := new Tracker(640, 480);
    var scan := t.Cycle();
    t.SaveResult([Detection(0, 0, 10, 10), Detection(0, 0, 10, 10)]);
    t.SaveResult([Detection(0, 0, 10, 10), Detection(0, 0, 10, 10)]);
    var track := t.Cycle();
    issued := t.commands;
  }
}
