/**
 * Pixel geometry used by the tracking loop: one detection's bounding box,
 * its centre, and the centre of the camera frame. All divisions are the
 * floor division `// 2` of `ServoAI_centerbox2.py`.
 */
module Geometry {

  /** One detection as the controller sees it: the bounding box only.
      Score and category label are opaque to the controller. */
  datatype Detection = Detection(originX: nat, originY: nat, width: nat, height: nat)

  /** A result batch delivered by one detector callback, in detector order. */
  type Batch = seq<Detection>

  /** A point in frame-pixel coordinates. */
  datatype Point = Point(x: int, y: int)

  /** Floor division by two (`n // 2`), for negative `n` as well. */
  function Half(n: int): (h: int)
    ensures 2 * h <= n < 2 * h + 2
  {
    n / 2
  }

  /** Centre of a bounding box: origin plus half the extent, rounded down.
      The centre always lies inside the box. */
  function BoxCenter(d: Detection): (c: Point)
    ensures d.originX <= c.x <= d.originX + d.width
    ensures d.originY <= c.y <= d.originY + d.height
    ensures d.width <= 2 * (c.x - d.originX) + 1 && 2 * (c.x - d.originX) <= d.width
    ensures d.height <= 2 * (c.y - d.originY) + 1 && 2 * (c.y - d.originY) <= d.height
  {
    Point(d.originX + Half(d.width), d.originY + Half(d.height))
  }

  /** Centre of a `width` x `height` frame, each coordinate rounded down. */
  function FrameCenter(width: int, height: int): (c: Point)
    ensures 2 * c.x <= width < 2 * c.x + 2
    ensures 2 * c.y <= height < 2 * c.y + 2
  {
    Point(Half(width), Half(height))
  }
}
