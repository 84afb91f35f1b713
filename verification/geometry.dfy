/**
 * Exact-real stand-ins for the Unity vector arithmetic the paint engine uses:
 * the point placed a fixed distance in front of the camera, and the minimum
 * distance between two consecutive paint samples.
 *
 * Distances are compared squared, so no square root is needed:
 * `Vector3.Distance(p, q) > d` holds exactly when `SqDist(p, q) > d * d`
 * for a non-negative `d`. Float rounding is not modelled.
 */
module Geometry {

  datatype Point = Point(x: real, y: real, z: real)

  /** The value of a `Vector3` field nobody assigned. */
  const Origin := Point(0.0, 0.0, 0.0)

  /** How far in front of the camera a paint sample is taken (CAMERA_ITEM_DISTANCE). */
  const CameraItemDistance: real := 0.5

  /** The minimum movement between two accepted paint samples (PAINT_ITEM_DISTANCE). */
  const PaintItemDistance: real := 0.1

  function Add(a: Point, b: Point): Point {
    Point(a.x + b.x, a.y + b.y, a.z + b.z)
  }

  function Scale(a: Point, k: real): Point {
    Point(a.x * k, a.y * k, a.z * k)
  }

  function Sq(v: real): real {
    v * v
  }

  /** Squared Euclidean distance. */
  function SqDist(a: Point, b: Point): real {
    Sq(a.x - b.x) + Sq(a.y - b.y) + Sq(a.z - b.z)
  }

  /**
   * The paint position for a camera at `camera` looking along `forward`:
   * the camera position plus the forward direction times the standoff.
   */
  function PaintPosition(camera: Point, forward: Point): Point {
    Add(camera, Scale(forward, CameraItemDistance))
  }

  /**
   * The distance gate: `p` is strictly further than PaintItemDistance from `q`.
   */
  predicate Far(p: Point, q: Point) {
    SqDist(p, q) > PaintItemDistance * PaintItemDistance
  }
}
