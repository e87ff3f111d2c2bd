/** Where a body or a moon is at simulation time `t`. The same formulas are
    used to draw (Renderer::drawObject, Renderer::drawMoon) and to hit-test
    (mouse_callback), so they are defined once here. */
module Orbit {
  import opened Geometry
  import opened Catalog

  /** Pluto's hard-coded ellipse: semi-axes 5.5 and 4.1 * 0.9, centred at
      (-1.0, 0.4). Both the drawn orbit line and the body use it. */
  const PLUTO_A: real := 5.5
  const PLUTO_B: real := 4.1 * 0.9
  const PLUTO_CX: real := -1.0
  const PLUTO_CY: real := 0.4

  /** The orbital angle of a body or moon: absolute in simulation time. */
  function Angle(t: real, orbitSpeed: real): real {
    t * orbitSpeed
  }

  /** The centre of a body at time `t`. */
  function BodyPosition(trig: Trig, obj: SolarObject, t: real): Point {
    var a := Angle(t, obj.orbitSpeed);
    if obj.name == PLUTO then
      Point(PLUTO_A * trig.cos(a) + PLUTO_CX, PLUTO_B * trig.sin(a) + PLUTO_CY)
    else
      Point(obj.orbitRadius * trig.cos(a), obj.orbitRadius * trig.sin(a))
  }

  /** The centre of a moon whose parent body is at `parent`: the moon's angle
      is its own speed times `t`, not an angle relative to the parent's phase. */
  function MoonPosition(trig: Trig, parent: Point, moon: Moon, t: real): Point {
    var a := Angle(t, moon.orbitSpeed);
    Point(parent.x + moon.orbitRadius * trig.cos(a), parent.y + moon.orbitRadius * trig.sin(a))
  }

  /** Every body other than Pluto lies on the circle of radius `orbitRadius`
      about the Sun, which is the orbit line drawn for it. */
  lemma CircularBodyOnOrbitLine(trig: Trig, obj: SolarObject, t: real)
    requires obj.name != PLUTO
    requires Pythagorean(trig, Angle(t, obj.orbitSpeed))
    ensures SquaredDistance(BodyPosition(trig, obj, t), Point(0.0, 0.0)) == obj.orbitRadius * obj.orbitRadius
  {
    var a := Angle(t, obj.orbitSpeed);
    var c, s, r := trig.cos(a), trig.sin(a), obj.orbitRadius;
    var p := BodyPosition(trig, obj, t);
    assert p == Point(r * c, r * s);
    calc {
      SquaredDistance(p, Point(0.0, 0.0));
      (r * c) * (r * c) + (r * s) * (r * s);
      r * r * (c * c + s * s);
      r * r;
    }
  }

  /** Pluto lies on the offset ellipse that is drawn as its orbit line. */
  lemma PlutoOnOrbitLine(trig: Trig, obj: SolarObject, t: real)
    requires obj.name == PLUTO
    requires Pythagorean(trig, Angle(t, obj.orbitSpeed))
    ensures var p := BodyPosition(trig, obj, t);
      ((p.x - PLUTO_CX) / PLUTO_A) * ((p.x - PLUTO_CX) / PLUTO_A)
      + ((p.y - PLUTO_CY) / PLUTO_B) * ((p.y - PLUTO_CY) / PLUTO_B) == 1.0
  {
    var a := Angle(t, obj.orbitSpeed);
    var p := BodyPosition(trig, obj, t);
    assert (p.x - PLUTO_CX) / PLUTO_A == trig.cos(a);
    assert (p.y - PLUTO_CY) / PLUTO_B == trig.sin(a);
  }

  /** A moon lies on the circle of radius `orbitRadius` about its parent,
      which is the moon orbit line drawn around the parent. */
  lemma MoonOnOrbitLine(trig: Trig, parent: Point, moon: Moon, t: real)
    requires Pythagorean(trig, Angle(t, moon.orbitSpeed))
    ensures SquaredDistance(MoonPosition(trig, parent, moon, t), parent) == moon.orbitRadius * moon.orbitRadius
  {
    var a := Angle(t, moon.orbitSpeed);
    var c, s, r := trig.cos(a), trig.sin(a), moon.orbitRadius;
    calc {
      SquaredDistance(MoonPosition(trig, parent, moon, t), parent);
      (r * c) * (r * c) + (r * s) * (r * s);
      r * r * (c * c + s * s);
      r * r;
    }
  }

  /** A moon's offset from its parent depends on the moon and the time only:
      two parents in any phase carry the moon at the same offset. */
  lemma MoonOffsetIgnoresParentPhase(trig: Trig, p: SolarObject, q: SolarObject, moon: Moon, t: real)
    ensures var pp, qp := BodyPosition(trig, p, t), BodyPosition(trig, q, t);
      var mp, mq := MoonPosition(trig, pp, moon, t), MoonPosition(trig, qp, moon, t);
      mp.x - pp.x == mq.x - qp.x && mp.y - pp.y == mq.y - qp.y
  {
  }
}
