/** Vectors and axis-aligned boxes, the part of three.js the core relies on. */
module Geometry {

  datatype Vec3 = Vec3(x: real, y: real, z: real) {
    function Plus(o: Vec3): Vec3 { Vec3(x + o.x, y + o.y, z + o.z) }
  }

  const Origin := Vec3(0.0, 0.0, 0.0)

  /** Squared Euclidean distance: `p.distanceTo(q) > 1` holds exactly when this exceeds 1. */
  function DistanceSquared(p: Vec3, q: Vec3): real
  {
    (p.x - q.x) * (p.x - q.x) + (p.y - q.y) * (p.y - q.y) + (p.z - q.z) * (p.z - q.z)
  }

  function Min(a: real, b: real): real { if a <= b then a else b }
  function Max(a: real, b: real): real { if a >= b then a else b }
  function Abs(a: real): real { if a < 0.0 then -a else a }

  /** A `Box3`: the corners with the smallest and the largest coordinates. */
  datatype Box3 = Box3(min: Vec3, max: Vec3)

  /** `Box3.setFromObject` of an unrotated box mesh of the given size centred at `c`. */
  function BoxAround(c: Vec3, width: real, height: real, depth: real): Box3
  {
    Box3(Vec3(c.x - width / 2.0, c.y - height / 2.0, c.z - depth / 2.0),
         Vec3(c.x + width / 2.0, c.y + height / 2.0, c.z + depth / 2.0))
  }

  /** `Box3.intersectsBox`: inclusive, so boxes whose faces touch intersect. */
  predicate Intersects(a: Box3, b: Box3)
  {
    !(a.max.x < b.min.x || a.min.x > b.max.x ||
      a.max.y < b.min.y || a.min.y > b.max.y ||
      a.max.z < b.min.z || a.min.z > b.max.z)
  }
}
