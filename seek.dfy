// Craig Reynolds' Seek steering behaviour, as AISteering.update computes it,
// stated on values. The class AISteering (module World) is proved against SeekStep.

module Seek {
  import opened Geometry

  /** The tuning fields of an AISteering agent. */
  datatype Tuning = Tuning(maxVelocity: real, maxSteeringForce: real, waypointRadius: real)

  /** The values every agent is created with (AISteering.swift:32-34). */
  const Defaults: Tuning := Tuning(10.0, 0.06, 50.0)

  /** The fields update and updateWaypoint change. */
  datatype Steer = Steer(waypoint: Point, currentPosition: Point, currentDirection: Point, waypointReached: bool)

  /** The vector toward `waypoint`, rescaled to length maxVelocity. */
  function Desired(t: Tuning, position: Point, waypoint: Point, distance: real): Point
    requires distance != 0.0
  {
    Div(Scale(Sub(waypoint, position), t.maxVelocity), distance)
  }

  /**
   * One call of update: `position` is the entity's position when the call starts,
   * `distance` the length of waypoint - position measured before the move.
   * Undefined when the entity stands on the waypoint (the source divides by zero).
   */
  function SeekStep(t: Tuning, s: Steer, position: Point, distance: real): (r: Steer)
    requires t.maxVelocity != 0.0
    requires IsLength(distance, Sub(s.waypoint, position))
    ensures r.waypoint == s.waypoint
    ensures r.currentPosition == Add(position, r.currentDirection)
    ensures r.waypointReached <==> s.waypointReached || distance < t.waypointRadius
  {
    var desired := Desired(t, position, s.waypoint, distance);
    var force := Sub(desired, s.currentDirection);
    var steeringForce := Div(Scale(force, t.maxSteeringForce), t.maxVelocity);
    var direction := Add(s.currentDirection, steeringForce);
    Steer(s.waypoint, Add(position, direction), direction,
          if distance < t.waypointRadius then true else s.waypointReached)
  }

  /** updateWaypoint: a new target, and the latch cleared. */
  function Retarget(s: Steer, waypoint: Point): (r: Steer)
    ensures r.waypoint == waypoint && !r.waypointReached
    ensures r.currentPosition == s.currentPosition && r.currentDirection == s.currentDirection
  {
    s.(waypoint := waypoint, waypointReached := false)
  }

  /** A convex combination (1 - k)·a + k·b of two vectors. */
  function Blend(a: Point, b: Point, k: real): Point
  {
    Add(Scale(a, 1.0 - k), Scale(b, k))
  }

  /** The new direction is the old one moved the fraction maxSteeringForce/maxVelocity toward Desired. */
  lemma SeekDirectionIsBlend(t: Tuning, s: Steer, position: Point, distance: real)
    requires t.maxVelocity != 0.0
    requires IsLength(distance, Sub(s.waypoint, position))
    ensures SeekStep(t, s, position, distance).currentDirection
            == Blend(s.currentDirection, Desired(t, position, s.waypoint, distance),
                     t.maxSteeringForce / t.maxVelocity)
  {
    var d := Desired(t, position, s.waypoint, distance);
    var c := s.currentDirection;
    var f, v := t.maxSteeringForce, t.maxVelocity;
    var step := Add(c, Div(Scale(Sub(d, c), f), v));
    assert SeekStep(t, s, position, distance).currentDirection == step;
    BlendComponent(c.x, d.x, f, v);
    BlendComponent(c.y, d.y, f, v);
    assert step == Blend(c, d, f / v);
  }

  lemma BlendComponent(c: real, d: real, f: real, v: real)
    requires v != 0.0
    ensures c + (d - c) * f / v == c * (1.0 - f / v) + d * (f / v)
  {
    assert (d - c) * f / v == (d - c) * (f / v);
  }

  /** The desired vector always has length maxVelocity. */
  lemma {:induction false} DesiredLength(t: Tuning, position: Point, waypoint: Point, distance: real)
    requires IsLength(distance, Sub(waypoint, position))
    ensures LengthSq(Desired(t, position, waypoint, distance)) == t.maxVelocity * t.maxVelocity
  {
    var w := Sub(waypoint, position);
    assert Desired(t, position, waypoint, distance)
        == Point((w.x * t.maxVelocity) / distance, (w.y * t.maxVelocity) / distance);
    RescaledLength(w.x, w.y, t.maxVelocity, distance);
  }

  lemma MulDivAssoc(a: real, b: real, c: real)
    requires c != 0.0
    ensures (a * b) / c == a * (b / c)
  {
  }

  lemma DivTimes(p: real, c: real)
    requires c != 0.0
    ensures (p / c) * c == p
  {
  }

  lemma RescaledLength(wx: real, wy: real, v: real, d: real)
    requires d != 0.0 && d * d == wx * wx + wy * wy
    ensures ((wx * v) / d) * ((wx * v) / d) + ((wy * v) / d) * ((wy * v) / d) == v * v
  {
    MulDivAssoc(wx, v, d);
    MulDivAssoc(wy, v, d);
    DivTimes(v, d);
    calc {
      ((wx * v) / d) * ((wx * v) / d) + ((wy * v) / d) * ((wy * v) / d);
      (wx * (v / d)) * (wx * (v / d)) + (wy * (v / d)) * (wy * (v / d));
      (wx * wx + wy * wy) * ((v / d) * (v / d));
      (d * d) * ((v / d) * (v / d));
      ((v / d) * d) * ((v / d) * d);
      v * v;
    }
  }

  lemma MulNonNeg(a: real, b: real)
    requires a >= 0.0 && b >= 0.0
    ensures a * b >= 0.0
  {
  }

  /** Squared length is convex: the blend is no longer than the blend of the squared lengths. */
  lemma {:induction false} BlendLengthSq(a: Point, b: Point, k: real)
    requires 0.0 <= k <= 1.0
    ensures LengthSq(Blend(a, b, k)) <= (1.0 - k) * LengthSq(a) + k * LengthSq(b)
  {
    var m := Blend(a, b, k);
    BlendSquare(a.x, b.x, k, m.x);
    BlendSquare(a.y, b.y, k, m.y);
    SumOfBlends(a.x, a.y, b.x, b.y, k);
  }

  lemma SumOfBlends(px: real, py: real, qx: real, qy: real, k: real)
    ensures (1.0 - k) * (px * px + py * py) + k * (qx * qx + qy * qy)
         == ((1.0 - k) * (px * px) + k * (qx * qx)) + ((1.0 - k) * (py * py) + k * (qy * qy))
  {
  }

  lemma BlendSquare(a: real, b: real, k: real, m: real)
    requires 0.0 <= k <= 1.0
    requires m == a * (1.0 - k) + b * k
    ensures m * m <= (1.0 - k) * (a * a) + k * (b * b)
  {
    assert (1.0 - k) * (a * a) + k * (b * b) - m * m == k * (1.0 - k) * ((a - b) * (a - b));
    MulNonNeg(k, 1.0 - k);
    MulNonNeg(k * (1.0 - k), (a - b) * (a - b));
  }

  lemma RatioInUnit(f: real, v: real)
    requires 0.0 < v && 0.0 <= f <= v
    ensures 0.0 <= f / v <= 1.0
  {
    var k := f / v;
    assert k * v == f;
  }

  /** A blend of a vector within `bound` with one exactly at `bound` stays within `bound` (squared lengths). */
  lemma BlendWithin(a: Point, b: Point, k: real, bound: real)
    requires 0.0 <= k <= 1.0
    requires LengthSq(a) <= bound && LengthSq(b) == bound
    ensures LengthSq(Blend(a, b, k)) <= bound
  {
    BlendLengthSq(a, b, k);
    ConvexBelow(LengthSq(a), LengthSq(b), LengthSq(Blend(a, b, k)), k, bound);
  }

  lemma ConvexBelow(la: real, lb: real, m: real, k: real, bound: real)
    requires 0.0 <= k <= 1.0 && la <= bound && lb == bound
    requires m <= (1.0 - k) * la + k * lb
    ensures m <= bound
  {
    MulNonNeg(1.0 - k, bound - la);
  }

  /**
   * With 0 <= maxSteeringForce <= maxVelocity (the defaults 0.06 and 10 qualify) one step
   * never takes the speed above maxVelocity when it started at most maxVelocity.
   */
  lemma {:induction false} SpeedBound(t: Tuning, s: Steer, position: Point, distance: real)
    requires 0.0 < t.maxVelocity && 0.0 <= t.maxSteeringForce <= t.maxVelocity
    requires IsLength(distance, Sub(s.waypoint, position))
    requires LengthSq(s.currentDirection) <= t.maxVelocity * t.maxVelocity
    ensures LengthSq(SeekStep(t, s, position, distance).currentDirection) <= t.maxVelocity * t.maxVelocity
  {
    SeekDirectionIsBlend(t, s, position, distance);
    assert LengthSq(Desired(t, position, s.waypoint, distance)) == t.maxVelocity * t.maxVelocity by {
      DesiredLength(t, position, s.waypoint, distance);
    }
    assert 0.0 <= t.maxSteeringForce / t.maxVelocity <= 1.0 by {
      RatioInUnit(t.maxSteeringForce, t.maxVelocity);
    }
    BlendWithin(s.currentDirection, Desired(t, position, s.waypoint, distance),
                t.maxSteeringForce / t.maxVelocity, t.maxVelocity * t.maxVelocity);
  }

  /** The defaults meet SpeedBound's requirement. */
  lemma DefaultsKeepSpeed(s: Steer, position: Point, distance: real)
    requires IsLength(distance, Sub(s.waypoint, position))
    requires LengthSq(s.currentDirection) <= 100.0
    ensures LengthSq(SeekStep(Defaults, s, position, distance).currentDirection) <= 100.0
  {
    SpeedBound(Defaults, s, position, distance);
  }

  /** Blending a vector with itself leaves it unchanged. */
  lemma BlendSelf(a: Point, k: real)
    ensures Blend(a, a, k) == a
  {
    assert a.x * (1.0 - k) + a.x * k == a.x;
    assert a.y * (1.0 - k) + a.y * k == a.y;
  }

  lemma ShrunkLength(ex: real, ey: real, v: real, d: real)
    requires d != 0.0 && d * d == ex * ex + ey * ey
    ensures (ex - (ex * v) / d) * (ex - (ex * v) / d) + (ey - (ey * v) / d) * (ey - (ey * v) / d)
            == (d - v) * (d - v)
  {
    var q := (d - v) / d;
    assert ex - (ex * v) / d == ex * q;
    assert ey - (ey * v) / d == ey * q;
    DivTimes(d - v, d);
    calc {
      (ex * q) * (ex * q) + (ey * q) * (ey * q);
      (ex * ex + ey * ey) * (q * q);
      (d * d) * (q * q);
      (q * d) * (q * d);
      (d - v) * (d - v);
    }
  }

  /** A step of exactly Desired brings the agent maxVelocity closer to the waypoint. */
  lemma StepAlongDesired(t: Tuning, position: Point, waypoint: Point, distance: real)
    requires 0.0 < t.maxVelocity < distance
    requires IsLength(distance, Sub(waypoint, position))
    ensures IsLength(distance - t.maxVelocity,
                     Sub(waypoint, Add(position, Desired(t, position, waypoint, distance))))
  {
    var e := Sub(waypoint, position);
    assert Sub(waypoint, Add(position, Desired(t, position, waypoint, distance)))
        == Point(e.x - (e.x * t.maxVelocity) / distance, e.y - (e.y * t.maxVelocity) / distance);
    ShrunkLength(e.x, e.y, t.maxVelocity, distance);
  }

  /**
   * Heading straight at the waypoint at full speed, a step keeps the direction and
   * brings the agent maxVelocity closer.
   */
  lemma {:induction false} StraightApproach(t: Tuning, s: Steer, position: Point, distance: real)
    requires 0.0 < t.maxVelocity < distance
    requires IsLength(distance, Sub(s.waypoint, position))
    requires s.currentDirection == Desired(t, position, s.waypoint, distance)
    ensures SeekStep(t, s, position, distance).currentDirection == s.currentDirection
    ensures IsLength(distance - t.maxVelocity,
                     Sub(s.waypoint, SeekStep(t, s, position, distance).currentPosition))
  {
    SeekDirectionIsBlend(t, s, position, distance);
    BlendSelf(s.currentDirection, t.maxSteeringForce / t.maxVelocity);
    assert SeekStep(t, s, position, distance).currentPosition
        == Add(position, Desired(t, position, s.waypoint, distance));
    StepAlongDesired(t, position, s.waypoint, distance);
  }


  /**
   * The reach test uses the distance measured before the move: an agent heading straight
   * at a waypoint from a distance in [waypointRadius, waypointRadius + maxVelocity) ends
   * the step inside the radius, yet the latch stays clear.
   */
  lemma {:induction false} PreMoveDistanceCheck(t: Tuning, s: Steer, position: Point, distance: real)
    requires 0.0 < t.maxVelocity
    requires t.waypointRadius <= distance < t.waypointRadius + t.maxVelocity
    requires IsLength(distance, Sub(s.waypoint, position))
    requires s.currentDirection == Desired(t, position, s.waypoint, distance)
    requires !s.waypointReached
    ensures distance - t.maxVelocity < t.waypointRadius
    ensures t.maxVelocity < distance ==>
              IsLength(distance - t.maxVelocity,
                       Sub(s.waypoint, SeekStep(t, s, position, distance).currentPosition))
    ensures !SeekStep(t, s, position, distance).waypointReached
  {
    if t.maxVelocity < distance {
      StraightApproach(t, s, position, distance);
    }
  }
}
