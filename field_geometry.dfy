/** The class constants of the Field widget: the space the viewer looks into,
    the size of the screen and of the balls, and the box the balls bounce in.
    Lengths are in metres; the origin is the centre of the screen, x points to
    the viewer's right, y up and z towards the viewer. */
module FieldGeometry {

  /** Initial distance of the viewer to the screen (pViewer[2]); it never changes */
  const ViewingDistance: real := 1.2
  /** Nearest viewable point */
  const ZNear: real := 0.5 * ViewingDistance
  /** The physical screen */
  const ZFocal: real := 0.0
  /** Furthest viewable point */
  const ZFar: real := -0.5 * ViewingDistance
  /** Distance between the eyes */
  const DEyes: real := 0.063
  /** Physical size of the screen */
  const ScreenWidth: real := 2.728
  const ScreenHeight: real := 1.02

  const RBalls: real := 0.1
  const NBalls: nat := 4
  /** Number of coordinates of a ball */
  const Dims: nat := 3

  /** The closed interval [lo, hi] a ball centre may occupy along one axis */
  datatype Bounds = Bounds(lo: real, hi: real)

  predicate Inside(x: real, b: Bounds)
  {
    b.lo <= x <= b.hi
  }

  /** The wall, one interval per axis: the screen shrunk by a ball radius in x
      and y, the viewable depth shrunk by a ball radius in z */
  const Wall: seq<Bounds> := [
    Bounds(-ScreenWidth / 2.0 + RBalls, ScreenWidth / 2.0 - RBalls),
    Bounds(-ScreenHeight / 2.0 + RBalls, ScreenHeight / 2.0 - RBalls),
    Bounds(ZFar + RBalls, ZNear - RBalls)
  ]

  /** Every axis of the wall is a proper interval, and the origin, where all
      balls start, lies strictly inside it */
  lemma WallWellFormed(d: nat)
    requires d < Dims
    ensures |Wall| == Dims
    ensures Wall[d].lo < 0.0 < Wall[d].hi
  {
  }

  /** The narrowest axis of the wall is y, 0.82 m wide */
  lemma WallNarrowestWidth(d: nat)
    requires d < Dims
    ensures Wall[d].hi - Wall[d].lo >= 0.82
    ensures Wall[1].hi - Wall[1].lo == 0.82
  {
  }

  /** The depth planes are ordered as the coordinate system promises:
      far behind the screen, the screen, near in front of it, the viewer
      in front of all three */
  lemma DepthPlanesOrdered()
    ensures ZFar < ZFocal < ZNear < ViewingDistance
  {
  }
}
