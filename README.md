# Servo tracking loop — a Dafny model

This project models the control logic of `ServoAI_centerbox2.py`, a Raspberry Pi
program that pans a servo to follow objects found by an asynchronous object
detector. The model covers four parts of that file:

- the **scan sweep** (`move_servo_continuous`), a triangle wave over the global
  `servo_angle` and `servo_direction` in 10-degree steps;
- the **detector callback** (`save_result`), which appends each result batch to the
  pending list and counts the batches holding at least two detections;
- the **deadband corrector** (`move_servo_to_center`), which turns the offset between
  a box centre and the frame centre into zero, one or two commands of ±5 degrees;
- the **per-cycle controller** (the body of the `while True` loop in `run`), which
  scans while fewer than two qualifying batches have arrived and tracks afterwards.

The servo is abstracted to the log of angles passed to `set_angle` (`Tracker.commands`)
and the LED to a boolean (`Tracker.led`). The callback is a method, `SaveResult`, that
the environment may call between two cycles; `Tracker.Run` runs the loop over any
interleaving of callbacks and cycles.

Files:

- `geometry.dfy` (module `Geometry`): the detection record, floor halving, box and frame centres.
- `sweep.dfy` (module `Sweep`): the sweep step as a pure function, its reachable states and its closed form.
- `deadband.dfy` (module `Deadband`): the commands issued for one box centre and for a whole batch.
- `controller.dfy` (module `Controller`): the `Tracker` class holding the program state and its
  methods; the same state as a value (`State`) with its per-cycle and per-event steps and their fold
  over a trace (`RunState`); and the trace functions `Branches` and `CountAfter` with the latching lemmas.

Behaviour kept as the code has it:

- The pending list is append-only, not a single overwriting slot. A tracking cycle acts on the
  oldest batch `[0]` only and then clears the whole list, so newer batches are dropped
  unprocessed (`Tracker.TrackPending`, `StaleBatchScenario`).
- `set_angle` and `move_servo_to_center` never assign `servo_angle`. Tracking commands are taken
  around `servo_angle` as the last scan step left it, which is one sweep step (ten degrees) past the
  last commanded scan angle, because a scan step commands the angle before advancing it
  (`FrozenAngleScenario`). They are not clamped: they range over [-5, 185].
- A box left of the frame centre lowers the angle (`servo_angle - 5`); a box above the centre
  raises it. The horizontal command comes before the vertical one, and every detection in the
  consumed batch issues its own commands.
- The detection count never resets, so tracking latches for good.
- The sweep stays in [0, 180] only from the states it reaches from its start (angle 0, rising):
  from an off-grid start such as angle 5 falling it commands -5 (`Sweep.OffGridStartLeavesRange`).

## Model

| member | source | states |
|---|---|---|
| `Geometry.Half` | ServoAI_centerbox2.py:98-99 | `n // 2` is floor division: `2h <= n < 2h + 2`, for negative `n` too |
| `Geometry.BoxCenter` | ServoAI_centerbox2.py:133-135 | the box centre is origin plus half the extent rounded down; it lies inside the box |
| `Geometry.FrameCenter` | ServoAI_centerbox2.py:98-99 | the frame centre is `(width // 2, height // 2)`, floor on each axis |
| `Sweep.StepMoves` | ServoAI_centerbox2.py:71-74 | a scan step adds `10 * direction` to the angle and negates the direction exactly when the new angle is >= 180 or <= 0 |
| `Sweep.StepPreservesReachable` | ServoAI_centerbox2.py:68-74 | a scan step keeps the angle a multiple of 10 in [0, 180], the direction in {1, -1} and pointing inwards at either end |
| `Sweep.IterateReachable` | ServoAI_centerbox2.py:68-74 | every state reached from angle 0, direction 1 is reachable, so every scan command lies in [0, 180] |
| `Sweep.Triangle` | ServoAI_centerbox2.py:68-74 | the closed-form sweep angle lies in [0, 180] and is a multiple of 10 |
| `Sweep.IterateIsTriangle` | ServoAI_centerbox2.py:68-74 | after `k` scan steps from the start the angle is the triangle wave 0, 10, ..., 180, 170, ..., 10 at step `k mod 36`, with the matching direction |
| `Sweep.SweepIsPeriodic` | ServoAI_centerbox2.py:68-74 | the sweep repeats every 36 steps |
| `Sweep.OffGridStartLeavesRange` | ServoAI_centerbox2.py:72-74 | the step alone does not keep the range: from angle 5 falling the next angle is -5 |
| `Deadband.CenterCommands` | ServoAI_centerbox2.py:76-93 | at most two commands; none exactly when both offsets are <= 20; horizontal first (`angle - 5` if the box is left, else `angle + 5`), vertical last (`angle + 5` if above, else `angle - 5`) |
| `Deadband.DeadbandBoundary` | ServoAI_centerbox2.py:78-79 | the comparison is strict: an offset of exactly 20 issues nothing, 21 issues one command, on either side and either axis |
| `Deadband.DeadbandExamples` | ServoAI_centerbox2.py:76-93 | in a 640 x 480 frame, centre (325, 240) issues nothing, (345, 240) issues `angle + 5`, (200, 240) issues `angle - 5` |
| `Deadband.BatchCommands` | ServoAI_centerbox2.py:132-138 | a batch issues at most two commands per detection, each five degrees either side of the same angle |
| `Deadband.BatchCommandsStep` | ServoAI_centerbox2.py:132-138 | processing one more detection appends exactly that detection's commands |
| `Deadband.BatchCommandsAppend` | ServoAI_centerbox2.py:132-138 | the commands of a concatenated batch are those of its parts, in order |
| `Deadband.BatchSilentIffAllCentred` | ServoAI_centerbox2.py:132-138 | a batch issues no command exactly when every detection in it is within the deadband |
| `Deadband.TrackingCommandRange` | ServoAI_centerbox2.py:81-92 | with the angle frozen in [0, 180], tracking commands lie in [-5, 185]; they are not clamped |
| `Controller.QualifyingCount` | ServoAI_centerbox2.py:106-107 | at most one count per delivered batch |
| `Controller.CountAfterCountsQualifying` | ServoAI_centerbox2.py:103-107 | over any event sequence the count grows by exactly the number of callback batches with at least two detections, and never decreases |
| `Controller.BranchesPerTick` | ServoAI_centerbox2.py:117-144 | one branch decision per cycle |
| `Controller.LockedStaysTracking` | ServoAI_centerbox2.py:126-128 | once the count is at least 2 every later cycle tracks |
| `Controller.TrackingLatches` | ServoAI_centerbox2.py:126 | once a cycle tracks, every later cycle tracks; there is no return to scanning |
| `Controller.NoLockKeepsScanning` | ServoAI_centerbox2.py:126-127 | while fewer than two qualifying batches have arrived, every cycle scans |
| `Controller.CountAfterAppend` | ServoAI_centerbox2.py:103-107 | the count over a concatenated trace is the count over the second part started from the count the first part leaves |
| `Controller.BranchesAppend` | ServoAI_centerbox2.py:117-144 | the branches over a concatenated trace are the first part's followed by the second part's, started from the count the first part leaves, so the latching lemmas apply to any prefix or suffix |
| `Controller.RunStateCount` | ServoAI_centerbox2.py:103-107 | the count in the folded program state is the start count plus one per callback batch with at least two detections |
| `Controller.ScanningKeepsBatches` | ServoAI_centerbox2.py:125-127 | while every cycle scans, the LED is unchanged, every delivered batch stays pending in arrival order, and the log grows by one command per cycle |
| `Controller.TrackingCycleDrains` | ServoAI_centerbox2.py:129-144 | a tracking cycle leaves nothing pending, lights the LED exactly when a batch was pending, freezes the sweep, and appends the commands of batch `[0]` only |
| `Controller.Tracker.constructor` | ServoAI_centerbox2.py:98-101 | start-up state: angle 0 rising, LED off, no commands, empty list, count 0 (the value `Start`), frame centre from the frame size |
| `Controller.Tracker.SetAngle` | ServoAI_centerbox2.py:59-66 | commanding an angle appends it to the log and changes nothing else, in particular not `servo_angle` |
| `Controller.Tracker.SetLed` | ServoAI_centerbox2.py:140-144 | the LED takes the value given |
| `Controller.Tracker.MoveServoContinuous` | ServoAI_centerbox2.py:68-74 | commands the current angle, then advances the sweep by one step; from a reachable state the command is in [0, 180] and the new state is reachable |
| `Controller.Tracker.MoveServoToCenter` | ServoAI_centerbox2.py:76-93 | appends exactly the deadband commands for the box centre; the servo globals are untouched |
| `Controller.Tracker.SaveResult` | ServoAI_centerbox2.py:103-107 | appends the batch to the pending list; the count rises by exactly 1 iff the batch has at least two detections, else is unchanged |
| `Controller.Tracker.TrackBatch` | ServoAI_centerbox2.py:132-138 | every detection of the batch, in order, issues its commands relative to the same frozen angle |
| `Controller.Tracker.TrackPending` | ServoAI_centerbox2.py:130-144 | with a non-empty list: acts on batch `[0]` only, LED on, list emptied; with an empty list: LED off, no command |
| `Controller.Tracker.Cycle` | ServoAI_centerbox2.py:125-144 | scans when the count is below 2 (list and LED untouched, sweep stepped), else tracks (sweep frozen, list drained); keeps the invariant that while scanning the LED is off and all commands lie in [0, 180] |
| `Controller.Tracker.Dispatch` | ServoAI_centerbox2.py:103-144 | the new state is the per-event step of the old one: a callback appends its batch, steps the count as `save_result` does and leaves log, LED and sweep alone; a cycle records its branch and does what `Cycle` does; the invariant is kept |
| `Controller.Tracker.Run` | ServoAI_centerbox2.py:117-153 | over any interleaving of callbacks and cycles the whole state afterwards (sweep, LED, command log, pending list, count) is the fold `RunState` of the events, the branches taken are `Branches` of them and the count is `CountAfter` of them; the invariant is kept |
| `Controller.FrozenAngleScenario` | ServoAI_centerbox2.py:68-93 | one scan from start-up commands 0 and leaves the angle at 10; a tracked batch of two boxes centred at (5, 5) then commands 5, 15, 5, 15, around 10 and not around 0 |
| `Controller.StaleBatchScenario` | ServoAI_centerbox2.py:103-144 | three callbacks then two cycles: the first cycle tracks, acts on the oldest batch only (commands -5 then 5 around angle 0), drops the newest batch and lights the LED; the second turns it off |

## Left out

- Camera capture, resize, flip and colour conversion (lines 17-22, 118-122): I/O and foreign library calls.
- The detector construction and `detect_async` (lines 110-115, 123, 155): an external inference engine; only its callback is modelled, as the `SaveResult` event.
- The asynchronous interleaving and the unsynchronised sharing of the pending list: callbacks are modelled as whole method calls between cycles, so torn or concurrent updates are not captured.
- The GPIO and PWM calls, the 0.5 s settling `sleep` and the duty-cycle formula `angle / 18 + 2` (lines 25-36, 59-66, 156-157): hardware I/O and floating point; only the commanded integer angle is kept.
- The detection's score and category label: the controller never reads them.
- `show_fps` (lines 42-57): wall-clock time, floats and rendering.
- `visualize`, `cv2.imshow`, `waitKey` and the `print` calls (lines 82-93, 131, 142, 146-153): display output; the ESC key that ends the loop is modelled by the event sequence simply ending.
- `main` and argument parsing (lines 160-173): command-line plumbing; the frame size arrives as the constructor's parameters.
