/** Vector types of the simulation (glm::vec3 and the 2D world plane) and the
    platform's trigonometry. The simulation only ever calls cos, sin and tan,
    so they are carried as uninterpreted function values in a `Trig` record;
    the only facts about them that the properties use, cos^2 + sin^2 == 1 and
    tan(FOV / 2) > 0, are taken as preconditions where needed. */
module Geometry {

  /** A glm::vec3: camera position and target, colours. */
  datatype Vec3 = Vec3(x: real, y: real, z: real) {
    /** `v *= f` */
    function Scale(f: real): Vec3 {
      Vec3(x * f, y * f, z * f)
    }
  }

  const ORIGIN: Vec3 := Vec3(0.0, 0.0, 0.0)

  /** A point of the z = 0 plane in which every body moves. */
  datatype Point = Point(x: real, y: real)

  /** The math library's cos, sin and tan, left uninterpreted. */
  datatype Trig = Trig(cos: real -> real, sin: real -> real, tan: real -> real)

  /** cos(a)^2 + sin(a)^2 == 1 at the angle `a`. */
  predicate Pythagorean(trig: Trig, a: real) {
    trig.cos(a) * trig.cos(a) + trig.sin(a) * trig.sin(a) == 1.0
  }

  function SquaredDistance(p: Point, q: Point): real {
    (p.x - q.x) * (p.x - q.x) + (p.y - q.y) * (p.y - q.y)
  }

  /** `sqrt(pow(p.x - q.x, 2) + pow(p.y - q.y, 2)) < r` without a square root:
      a square root is never negative, so no point is closer than a radius
      r <= 0, and for r > 0 the comparison squares on both sides. */
  predicate WithinRadius(p: Point, q: Point, r: real) {
    0.0 < r && SquaredDistance(p, q) < r * r
  }

  /** The sign of a product of two non-negative reals. */
  lemma ProductSign(a: real, b: real)
    requires 0.0 <= a && 0.0 <= b
    ensures 0.0 <= a * b
    ensures 0.0 < a && 0.0 < b ==> 0.0 < a * b
  {
  }

  lemma CentreIsWithinRadius(p: Point, r: real)
    requires 0.0 < r
    ensures WithinRadius(p, p, r)
  {
    calc {
      SquaredDistance(p, p);
    ==
      0.0;
    < { ProductSign(r, r); }
      r * r;
    }
  }
}
