/**
 * Core Graphics and SceneKit value types on reals: `CGPoint`, `CGSize`,
 * `CGRect`, `SCNVector3`, and the AR camera seen only through its
 * position, its unprojection and its projection.
 */
module Geometry {
  import opened Wrappers
  import opened Numeric

  datatype Point = Point(x: real, y: real)

  /** `CGPoint.zero`. */
  const Origin: Point := Point(0.0, 0.0)

  datatype Size = Size(width: real, height: real)

  const ZeroSize: Size := Size(0.0, 0.0)

  /**
   * A `CGRect` as stored: its size may be negative. The `Min*`, `Max*`,
   * `Width` and `Height` accessors are those of the standardized rectangle,
   * as Core Graphics defines them.
   */
  datatype Rect = Rect(origin: Point, size: Size) {
    function MinX(): real { Min(origin.x, origin.x + size.width) }
    function MaxX(): real { Max(origin.x, origin.x + size.width) }
    function MinY(): real { Min(origin.y, origin.y + size.height) }
    function MaxY(): real { Max(origin.y, origin.y + size.height) }
    function MidX(): real { origin.x + size.width / 2.0 }
    function MidY(): real { origin.y + size.height / 2.0 }
    function Width(): real { Abs(size.width) }
    function Height(): real { Abs(size.height) }

    /** `CGRect.contains(_:)`: the left and top edges belong to the rectangle, the others do not. */
    predicate Contains(p: Point) {
      MinX() <= p.x < MaxX() && MinY() <= p.y < MaxY()
    }
  }

  /** `CGRect.zero`. */
  const ZeroRect: Rect := Rect(Origin, ZeroSize)

  datatype Vec3 = Vec3(x: real, y: real, z: real) {
    function Add(v: Vec3): Vec3 { Vec3(x + v.x, y + v.y, z + v.z) }
    function Sub(v: Vec3): Vec3 { Vec3(x - v.x, y - v.y, z - v.z) }
    function Scale(k: real): Vec3 { Vec3(x * k, y * k, z * k) }
    function Dot(v: Vec3): real { x * v.x + y * v.y + z * v.z }
  }

  const ZeroVec: Vec3 := Vec3(0.0, 0.0, 0.0)

  /**
   * The AR view as the guidance code sees it: the camera position of the
   * current frame (`None` when the session has no frame), the normalized
   * viewing direction through a screen point (`unprojectPoint` on the near
   * plane, minus the camera position, divided by its length) and
   * `projectPoint`.
   */
  datatype Camera = Camera(position: Option<Vec3>, heading: Point -> Vec3, project: Vec3 -> Point) {
    /** Every viewing direction has unit length, as normalization makes it. */
    ghost predicate Valid() {
      forall p: Point :: heading(p).Dot(heading(p)) == 1.0
    }
  }

  lemma ScaleDot(n: Vec3, k: real)
    ensures n.Scale(k).Dot(n) == k * n.Dot(n)
  {
  }
}
