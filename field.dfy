/** The Field widget's state and the methods that change it: ball positions
    and velocities (advanced by move), the viewer position, the view set, the
    stereo intensity level and the frame counter. */
module FieldWidget {
  import opened Wrappers
  import opened FieldGeometry
  import opened BallMotion
  import opened StereoView

  class Field {
    /** Ball positions and velocities, NBalls rows of Dims coordinates */
    var pBalls: array2<real>
    var vBalls: array2<real>
    /** Viewer position x, y, z; z is the viewing distance and never changes */
    var pViewer: array<real>
    var views: seq<string>
    var stereoIntensityLevel: int
    var running: bool
    var nFrame: nat
    var wallCollide: bool

    /** The arrays have the widget's fixed shapes */
    predicate Shaped()
      reads this
    {
      pBalls.Length0 == NBalls && pBalls.Length1 == Dims &&
      vBalls.Length0 == NBalls && vBalls.Length1 == Dims &&
      pBalls != vBalls && pViewer.Length == 3
    }

    /** The widget's invariant: the fixed shapes, the fixed viewing distance
        and a view set toggleStereo can produce */
    ghost predicate Valid()
      reads this, pViewer
    {
      Shaped() && pViewer[2] == ViewingDistance && LegalViews(views)
    }

    /** Every ball inside the wall on every axis, no velocity component faster
        than the initial bound */
    ghost predicate Contained()
      reads this, pBalls, vBalls
      requires Shaped()
    {
      forall i, d :: 0 <= i < NBalls && 0 <= d < Dims ==>
        Inside(pBalls[i, d], Wall[d]) && Abs(vBalls[i, d]) <= MaxSpeed
    }

    function Viewer(): Point
      reads this, pViewer
      requires pViewer.Length == 3
    {
      Point(pViewer[0], pViewer[1], pViewer[2])
    }

    /** The balls start at the origin with the drawn velocities v0, the
        viewer at distance ViewingDistance in front of the screen centre */
    constructor (v0: seq<seq<real>>)
      requires |v0| == NBalls && forall i :: 0 <= i < NBalls ==> |v0[i]| == Dims
      requires forall i, d :: 0 <= i < NBalls && 0 <= d < Dims ==> -MaxSpeed <= v0[i][d] < MaxSpeed
      ensures Valid() && Contained()
      ensures fresh(pBalls) && fresh(vBalls) && fresh(pViewer)
      ensures forall i, d :: 0 <= i < NBalls && 0 <= d < Dims ==> pBalls[i, d] == 0.0 && vBalls[i, d] == v0[i][d]
      ensures Viewer() == Point(0.0, 0.0, ViewingDistance)
      ensures views == Mono && stereoIntensityLevel == 0 && !running && nFrame == 0 && wallCollide
    {
      pBalls := new real[NBalls, Dims]((i, d) => 0.0);
      vBalls := new real[NBalls, Dims]((i, d) => if 0 <= i < |v0| && 0 <= d < |v0[i]| then v0[i][d] else 0.0);
      pViewer := new real[3] [0.0, 0.0, ViewingDistance];
      views := Mono;
      stereoIntensityLevel := 0;
      running := false;
      nFrame := 0;
      wallCollide := true;
      new;
      forall d | 0 <= d < Dims ensures Inside(0.0, Wall[d]) {
        WallWellFormed(d);
      }
    }

    /** toggleStereo: the new view set; the menu actions it enables are not
        modelled, and the default sim=False is passed as an explicit false */
    method ToggleStereo(on: bool, sim: bool)
      requires Valid()
      modifies this`views
      ensures Valid()
      ensures views == ToggledViews(old(views), on, sim)
    {
      if on || |views| == 1 {
        if sim {
          views := SimulatedPair;
        } else {
          views := StereoPair;
        }
      } else {
        views := Mono;
      }
    }

    /** stereoIntensity: ok is false when neither argument is given (a
        TypeError in the source), and then nothing changes */
    method StereoIntensity(level: Option<int>, relative: Option<int>) returns (ok: bool)
      requires Valid()
      modifies this`stereoIntensityLevel
      ensures Valid()
      ensures ok == IntensityAfter(old(stereoIntensityLevel), level, relative).Some?
      ensures stereoIntensityLevel == IntensityAfter(old(stereoIntensityLevel), level, relative).GetOr(old(stereoIntensityLevel))
      ensures level.None? && -9 <= old(stereoIntensityLevel) <= 9 ==> -9 <= stereoIntensityLevel <= 9
    {
      ok := true;
      if level.Some? {
        stereoIntensityLevel := level.value;
      } else if relative.None? {
        ok := false;
      } else if -10 < stereoIntensityLevel + relative.value < 10 {
        stereoIntensityLevel := stereoIntensityLevel + relative.value;
      }
    }

    /** viewerMove: x and y (0 when y is not given) change, the viewing
        distance does not */
    method ViewerMove(x: real, y: Option<real>)
      requires Valid()
      modifies pViewer
      ensures Valid()
      ensures Viewer() == Point(x, y.GetOr(0.0), old(pViewer[2]))
    {
      pViewer[0] := x;
      pViewer[1] := 0.0;
      if y.Some? {
        pViewer[1] := y.value;
      }
    }

    /** move: every coordinate of every ball goes through CoordStep, with the
        step clamped from the elapsed milliseconds; the positions are a new
        array, the velocities are updated in place. A contained field stays
        contained when the walls are on and the elapsed-time reading is not negative. */
    method Move(elapsedMs: int)
      requires Valid()
      modifies this`pBalls, vBalls
      ensures Valid() && fresh(pBalls) && vBalls == old(vBalls)
      ensures forall i, d :: 0 <= i < NBalls && 0 <= d < Dims ==>
        Coord(pBalls[i, d], vBalls[i, d]) ==
          CoordStep(Coord(old(pBalls[i, d]), old(vBalls[i, d])), StepSize(elapsedMs), Wall[d], wallCollide)
      ensures old(Contained()) && wallCollide && elapsedMs >= 0 ==> Contained()
    {
      var dt := StepSize(elapsedMs);
      pBalls := Advanced(pBalls, vBalls, dt);
      if wallCollide {
        ReflectAll(pBalls, vBalls);
        assert forall i, d :: 0 <= i < NBalls && 0 <= d < Dims ==>
          Coord(pBalls[i, d], vBalls[i, d]) == CoordStep(Coord(old(pBalls[i, d]), old(vBalls[i, d])), dt, Wall[d], true);
        if old(Contained()) && elapsedMs >= 0 {
          SteppedStaysContained(dt);
        }
      }
    }

    /** A contained field stepped coordinate by coordinate with the walls on
        and a clamped, non-negative step is contained again */
    twostate lemma SteppedStaysContained(dt: real)
      requires old(Shaped()) && Shaped()
      requires old(Contained()) && 0.0 <= dt <= MaxStep
      requires forall i, d :: 0 <= i < NBalls && 0 <= d < Dims ==>
        Coord(pBalls[i, d], vBalls[i, d]) == CoordStep(Coord(old(pBalls[i, d]), old(vBalls[i, d])), dt, Wall[d], true)
      ensures Contained()
    {
      forall i, d | 0 <= i < NBalls && 0 <= d < Dims
        ensures Inside(pBalls[i, d], Wall[d]) && Abs(vBalls[i, d]) <= MaxSpeed
      {
        var c := Coord(old(pBalls[i, d]), old(vBalls[i, d]));
        ClampedStepFitsWall(c.v, dt, d);
        StepStaysInside(c, dt, Wall[d]);
      }
    }

    /** The frame logic of paintGL: the views of every eye of the view set,
        then, when running, one more frame and one move. When an eye's
        intensity lookup fails the frame is abandoned (None) before anything
        changes. */
    method Paint(elapsedMs: int) returns (frame: Option<seq<View>>)
      requires Valid()
      modifies this`pBalls, this`nFrame, vBalls
      ensures Valid()
      ensures frame == FrameViews(old(views), old(stereoIntensityLevel), old(Viewer()))
      ensures nFrame == if frame.Some? && old(running) then old(nFrame) + 1 else old(nFrame)
      ensures frame.Some? && old(running) ==> fresh(pBalls) && vBalls == old(vBalls)
      ensures frame.Some? && old(running) ==>
        forall i, d :: 0 <= i < NBalls && 0 <= d < Dims ==>
          Coord(pBalls[i, d], vBalls[i, d]) ==
            CoordStep(Coord(old(pBalls[i, d]), old(vBalls[i, d])), StepSize(elapsedMs), Wall[d], wallCollide)
      ensures frame.None? || !old(running) ==> pBalls == old(pBalls) && unchanged(vBalls)
      ensures old(Contained()) && wallCollide && elapsedMs >= 0 ==> Contained()
    {
      frame := FrameViews(views, stereoIntensityLevel, Viewer());
      if frame.Some? && running {
        nFrame := nFrame + 1;
        Move(elapsedMs);
      }
    }
  }

  /** The Euler update p + v * dt of every coordinate, into a new array */
  method Advanced(p: array2<real>, v: array2<real>, dt: real) returns (q: array2<real>)
    requires p.Length0 == v.Length0 && p.Length1 == v.Length1
    ensures fresh(q) && q.Length0 == p.Length0 && q.Length1 == p.Length1
    ensures forall i, d :: 0 <= i < p.Length0 && 0 <= d < p.Length1 ==> q[i, d] == p[i, d] + v[i, d] * dt
  {
    q := new real[p.Length0, p.Length1];
    for i := 0 to p.Length0
      modifies q
      invariant forall i', d :: 0 <= i' < i && 0 <= d < p.Length1 ==> q[i', d] == p[i', d] + v[i', d] * dt
    {
      for d := 0 to p.Length1
        modifies q
        invariant forall i', d' :: 0 <= i' <= i && 0 <= d' < p.Length1 && (i' < i || d' < d) ==>
          q[i', d'] == p[i', d'] + v[i', d'] * dt
      {
        q[i, d] := p[i, d] + v[i, d] * dt;
      }
    }
  }

  /** The wall reflection of all coordinates of ball i, in place */
  method ReflectBall(p: array2<real>, v: array2<real>, i: nat)
    requires p != v && p.Length1 == v.Length1 == Dims
    requires i < p.Length0 && i < v.Length0
    modifies p, v
    ensures forall d :: 0 <= d < Dims ==> Coord(p[i, d], v[i, d]) == Reflect(old(p[i, d]), old(v[i, d]), Wall[d])
    ensures forall i', d :: 0 <= i' < p.Length0 && 0 <= d < Dims && i' != i ==> p[i', d] == old(p[i', d])
    ensures forall i', d :: 0 <= i' < v.Length0 && 0 <= d < Dims && i' != i ==> v[i', d] == old(v[i', d])
  {
    for d := 0 to Dims
      invariant forall d' :: 0 <= d' < d ==> Coord(p[i, d'], v[i, d']) == Reflect(old(p[i, d']), old(v[i, d']), Wall[d'])
      invariant forall d' :: d <= d' < Dims ==> p[i, d'] == old(p[i, d']) && v[i, d'] == old(v[i, d'])
      invariant forall i', d' :: 0 <= i' < p.Length0 && 0 <= d' < Dims && i' != i ==> p[i', d'] == old(p[i', d'])
      invariant forall i', d' :: 0 <= i' < v.Length0 && 0 <= d' < Dims && i' != i ==> v[i', d'] == old(v[i', d'])
    {
      if p[i, d] < Wall[d].lo {
        p[i, d] := 2.0 * Wall[d].lo - p[i, d];
        v[i, d] := -v[i, d];
      } else if p[i, d] > Wall[d].hi {
        p[i, d] := 2.0 * Wall[d].hi - p[i, d];
        v[i, d] := -v[i, d];
      }
    }
  }

  /** The wall reflection of every coordinate of every ball, in place */
  method ReflectAll(p: array2<real>, v: array2<real>)
    requires p != v && p.Length0 == v.Length0 && p.Length1 == v.Length1 == Dims
    modifies p, v
    ensures forall i, d :: 0 <= i < p.Length0 && 0 <= d < Dims ==>
      Coord(p[i, d], v[i, d]) == Reflect(old(p[i, d]), old(v[i, d]), Wall[d])
  {
    for i := 0 to p.Length0
      invariant forall i', d :: 0 <= i' < i && 0 <= d < Dims ==>
        Coord(p[i', d], v[i', d]) == Reflect(old(p[i', d]), old(v[i', d]), Wall[d])
      invariant forall i', d :: i <= i' < p.Length0 && 0 <= d < Dims ==>
        p[i', d] == old(p[i', d]) && v[i', d] == old(v[i', d])
    {
      ReflectBall(p, v, i);
    }
  }
}
