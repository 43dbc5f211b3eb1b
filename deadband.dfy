/**
 * The deadband corrector: the servo commands issued to bring a detection
 * towards the frame centre. Each axis whose offset exceeds the tolerance
 * issues one command of five degrees either side of the current angle;
 * both axes drive the one pan servo.
 */
module Deadband {
  import opened Geometry

  /** Pixel offset at or below which an axis issues no command. */
  const TOLERANCE: int := 20
  /** Degrees either side of the current angle in a corrective command. */
  const NUDGE: int := 5

  function Abs(n: int): (a: int)
    ensures a >= 0 && (a == n || a == -n)
  {
    if n < 0 then -n else n
  }

  /** An axis is off centre when its offset is strictly above the tolerance. */
  predicate OffCentre(box: int, frame: int)
  {
    Abs(box - frame) > TOLERANCE
  }

  /** Horizontal correction: a box left of centre lowers the angle,
      otherwise it raises it. */
  function HorizontalCommand(angle: int, boxX: int, frameX: int): seq<int>
  {
    if !OffCentre(boxX, frameX) then []
    else if boxX < frameX then [angle - NUDGE]
    else [angle + NUDGE]
  }

  /** Vertical correction on the same servo: a box above centre raises the
      angle, otherwise it lowers it. */
  function VerticalCommand(angle: int, boxY: int, frameY: int): seq<int>
  {
    if !OffCentre(boxY, frameY) then []
    else if boxY < frameY then [angle + NUDGE]
    else [angle - NUDGE]
  }

  /** The angles commanded, in order, for one box centre. */
  function CenterCommands(angle: int, box: Point, frame: Point): (cmds: seq<int>)
    ensures |cmds| <= 2
    ensures cmds == [] <==> !OffCentre(box.x, frame.x) && !OffCentre(box.y, frame.y)
    ensures |cmds| == 2 <==> OffCentre(box.x, frame.x) && OffCentre(box.y, frame.y)
    ensures OffCentre(box.x, frame.x) ==>
              cmds[0] == (if box.x < frame.x then angle - NUDGE else angle + NUDGE)
    ensures OffCentre(box.y, frame.y) ==>
              cmds[|cmds| - 1] == (if box.y < frame.y then angle + NUDGE else angle - NUDGE)
    ensures forall i :: 0 <= i < |cmds| ==> cmds[i] == angle - NUDGE || cmds[i] == angle + NUDGE
  {
    HorizontalCommand(angle, box.x, frame.x) + VerticalCommand(angle, box.y, frame.y)
  }

  /** The commands for one detection. */
  function DetectionCommands(angle: int, d: Detection, frame: Point): seq<int>
  {
    CenterCommands(angle, BoxCenter(d), frame)
  }

  /** The commands for a whole batch: every detection, in batch order,
      issues its own commands, all relative to the same angle. */
  function BatchCommands(angle: int, batch: Batch, frame: Point): (cmds: seq<int>)
    ensures |cmds| <= 2 * |batch|
    ensures forall i :: 0 <= i < |cmds| ==> cmds[i] == angle - NUDGE || cmds[i] == angle + NUDGE
  {
    if batch == [] then []
    else BatchCommands(angle, batch[..|batch| - 1], frame)
         + DetectionCommands(angle, batch[|batch| - 1], frame)
  }

  /** Extending a batch prefix by one detection appends that detection's commands. */
  lemma BatchCommandsStep(angle: int, batch: Batch, i: nat, frame: Point)
    requires i < |batch|
    ensures BatchCommands(angle, batch[..i + 1], frame)
            == BatchCommands(angle, batch[..i], frame) + DetectionCommands(angle, batch[i], frame)
  {
    assert batch[..i + 1][..i] == batch[..i];
  }

  /** Commands of a concatenated batch are the commands of its parts, in order. */
  lemma {:induction false} BatchCommandsAppend(angle: int, a: Batch, b: Batch, frame: Point)
    ensures BatchCommands(angle, a + b, frame)
            == BatchCommands(angle, a, frame) + BatchCommands(angle, b, frame)
  {
    if b == [] {
      assert a + b == a;
    } else {
      var b' := b[..|b| - 1];
      assert (a + b)[..|a + b| - 1] == a + b';
      assert (a + b)[|a + b| - 1] == b[|b| - 1];
      BatchCommandsAppend(angle, a, b', frame);
    }
  }

  /** A batch issues no command exactly when every detection in it is
      centred within the tolerance on both axes. */
  lemma {:induction false} BatchSilentIffAllCentred(angle: int, batch: Batch, frame: Point)
    ensures BatchCommands(angle, batch, frame) == [] <==>
            forall i :: 0 <= i < |batch| ==> DetectionCommands(angle, batch[i], frame) == []
  {
    if batch != [] {
      var init := batch[..|batch| - 1];
      BatchSilentIffAllCentred(angle, init, frame);
      assert forall i :: 0 <= i < |init| ==> init[i] == batch[i];
    }
  }

  /** The deadband is closed: an offset of exactly the tolerance issues no
      command on that axis; one pixel more issues one. */
  lemma DeadbandBoundary(angle: int, frame: Point)
    ensures CenterCommands(angle, Point(frame.x + TOLERANCE, frame.y), frame) == []
    ensures CenterCommands(angle, Point(frame.x - TOLERANCE, frame.y), frame) == []
    ensures CenterCommands(angle, Point(frame.x + TOLERANCE + 1, frame.y), frame) == [angle + NUDGE]
    ensures CenterCommands(angle, Point(frame.x - TOLERANCE - 1, frame.y), frame) == [angle - NUDGE]
    ensures CenterCommands(angle, Point(frame.x, frame.y + TOLERANCE), frame) == []
    ensures CenterCommands(angle, Point(frame.x, frame.y - TOLERANCE), frame) == []
    ensures CenterCommands(angle, Point(frame.x, frame.y - TOLERANCE - 1), frame) == [angle + NUDGE]
    ensures CenterCommands(angle, Point(frame.x, frame.y + TOLERANCE + 1), frame) == [angle - NUDGE]
  {
  }

  /** For a 640 x 480 frame: a box centred at (325, 240) is inside the
      deadband; one centred at (345, 240) issues a single raise; one centred
      at (200, 240) issues a single lowering. */
  lemma DeadbandExamples(angle: int)
    ensures FrameCenter(640, 480) == Point(320, 240)
    ensures CenterCommands(angle, Point(325, 240), FrameCenter(640, 480)) == []
    ensures CenterCommands(angle, Point(345, 240), FrameCenter(640, 480)) == [angle + NUDGE]
    ensures CenterCommands(angle, Point(200, 240), FrameCenter(640, 480)) == [angle - NUDGE]
  {
  }

  /** With the angle frozen anywhere in [0, 180], tracking commands lie in
      [-5, 185]: they are not clamped to the servo range. */
  lemma TrackingCommandRange(angle: int, batch: Batch, frame: Point)
    requires 0 <= angle <= 180
    ensures forall c :: c in BatchCommands(angle, batch, frame) ==> -NUDGE <= c <= 180 + NUDGE
  {
  }
}
