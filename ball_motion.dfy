/** The rule Field.move applies to every coordinate of every ball: a clamped
    time step, an Euler position update and an elastic reflection against
    the wall. Coordinates are reals; float32 rounding is not modelled. */
module BallMotion {
  import opened FieldGeometry

  /** Position and velocity of one ball along one axis */
  datatype Coord = Coord(p: real, v: real)

  function Abs(x: real): (r: real)
    ensures r >= 0.0 && (r == x || r == -x)
  {
    if x < 0.0 then -x else x
  }

  /** Largest elapsed-time reading in milliseconds that move uses; larger readings are cut to this */
  const MaxStepMs: int := 100
  const MaxStep: real := 0.1
  /** Bound on every velocity component drawn at start-up (uniform on [-0.1, 0.1)) */
  const MaxSpeed: real := 0.1

  /** The time step in seconds that move takes after elapsedMs milliseconds */
  function StepSize(elapsedMs: int): (dt: real)
    ensures dt <= MaxStep
    ensures elapsedMs >= 0 ==> 0.0 <= dt
    ensures elapsedMs <= MaxStepMs ==> dt * 1000.0 == elapsedMs as real
    ensures elapsedMs >= MaxStepMs ==> dt == MaxStep
  {
    0.001 * (if MaxStepMs < elapsedMs then MaxStepMs else elapsedMs) as real
  }

  /** Reflect an advanced coordinate q, moving with velocity v, against the
      interval w: a position below the lower bound is mirrored about it, one
      above the upper bound about that one, and in both cases the velocity
      component is reversed */
  function Reflect(q: real, v: real, w: Bounds): (r: Coord)
    ensures Abs(r.v) == Abs(v)
    ensures Inside(q, w) ==> r == Coord(q, v)
  {
    if q < w.lo then Coord(2.0 * w.lo - q, -v)
    else if q > w.hi then Coord(2.0 * w.hi - q, -v)
    else Coord(q, v)
  }

  /** One coordinate through one call of move */
  function CoordStep(c: Coord, dt: real, w: Bounds, wallCollide: bool): (r: Coord)
    ensures Abs(r.v) == Abs(c.v)
    ensures !wallCollide || Inside(c.p + c.v * dt, w) ==> r == Coord(c.p + c.v * dt, c.v)
  {
    var q := c.p + c.v * dt;
    if wallCollide then Reflect(q, c.v, w) else Coord(q, c.v)
  }

  /** Reflection never changes the speed along an axis, and leaves a
      coordinate that did not cross the wall exactly as it was */
  lemma ReflectPreservesSpeed(q: real, v: real, w: Bounds)
    ensures Abs(Reflect(q, v, w).v) == Abs(v)
    ensures Inside(q, w) <==> Reflect(q, v, w) == Coord(q, v)
    ensures !Inside(q, w) ==> Reflect(q, v, w).v == -v && Reflect(q, v, w).p != q
  {
  }

  /** A coordinate that overshoots the wall by no more than the wall's width
      lands inside after one reflection, and reflecting it again changes
      nothing: the single pass of move is enough */
  lemma ReflectSettles(q: real, v: real, w: Bounds)
    requires w.lo <= w.hi
    requires 2.0 * w.lo - w.hi <= q <= 2.0 * w.hi - w.lo
    ensures Inside(Reflect(q, v, w).p, w)
    ensures Reflect(Reflect(q, v, w).p, Reflect(q, v, w).v, w) == Reflect(q, v, w)
  {
    var r := Reflect(q, v, w);
    assert Inside(r.p, w);
    ReflectPreservesSpeed(r.p, r.v, w);
  }

  /** Containment: a coordinate inside the wall whose displacement in this step
      is at most the wall's width is inside again after the step, with the
      same speed */
  lemma StepStaysInside(c: Coord, dt: real, w: Bounds)
    requires Inside(c.p, w)
    requires Abs(c.v * dt) <= w.hi - w.lo
    ensures Inside(CoordStep(c, dt, w, true).p, w)
    ensures Abs(CoordStep(c, dt, w, true).v) == Abs(c.v)
  {
    var q := c.p + c.v * dt;
    ReflectSettles(q, c.v, w);
    ReflectPreservesSpeed(q, c.v, w);
  }

  /** Without the bound on the displacement containment fails: a ball on the
      lower wall moving down by more than the width ends above the upper wall */
  lemma OvershootEscapes()
    ensures !Inside(CoordStep(Coord(-1.0, -3.0), 1.0, Bounds(-1.0, 1.0), true).p, Bounds(-1.0, 1.0))
  {
  }

  /** Proof helper for ClampedStepFitsWall: scaling by a non-negative factor keeps order */
  lemma ScaleMonotone(a: real, b: real, c: real)
    requires a <= b && 0.0 <= c
    ensures a * c <= b * c
  {
    assert b * c - a * c == (b - a) * c;
  }

  /** With the Field's constants the displacement bound always holds: a
      velocity component of at most MaxSpeed over a clamped step moves a ball
      by at most 0.01 m, far less than the narrowest wall width */
  lemma ClampedStepFitsWall(v: real, dt: real, d: nat)
    requires d < Dims
    requires Abs(v) <= MaxSpeed
    requires 0.0 <= dt <= MaxStep
    ensures Abs(v * dt) <= MaxSpeed * MaxStep
    ensures MaxSpeed * MaxStep < Wall[d].hi - Wall[d].lo
  {
    assert Abs(v * dt) == Abs(v) * dt;
    ScaleMonotone(Abs(v), MaxSpeed, dt);
    ScaleMonotone(dt, MaxStep, MaxSpeed);
    WallNarrowestWidth(d);
  }
}
