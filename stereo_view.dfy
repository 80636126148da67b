/** What Field.paintGL computes for each eye before drawing: the lateral eye
    offset, the crosstalk-compensation intensity and the arguments handed to
    the off-axis projection routine; and the two small pieces of stereo state
    the widget keeps, the view set and the intensity level. */
module StereoView {
  import opened Wrappers
  import opened FieldGeometry

  /** Intensity of the left-eye image, by entry; falls from 1.0 to 0.1 */
  const LeftIntensity: seq<real> :=
    [1.0, 1.0, 1.0, 1.0, 1.0, 1.0, 1.0, 1.0, 1.0, 1.0, 0.9, 0.8, 0.7, 0.6, 0.5, 0.4, 0.3, 0.2, 0.1]
  /** Intensity of the right-eye image, by entry; rises from 0.1 to 1.0 */
  const RightIntensity: seq<real> :=
    [0.1, 0.2, 0.3, 0.4, 0.5, 0.6, 0.7, 0.8, 0.9, 1.0, 1.0, 1.0, 1.0, 1.0, 1.0, 1.0, 1.0, 1.0, 1.0]

  /** Python list indexing: a negative index counts from the end; an index out
      of range raises IndexError, here None */
  function PyIndex<T>(s: seq<T>, i: int): (r: Option<T>)
    ensures r.Some? <==> -|s| <= i < |s|
    ensures -|s| <= i < 0 ==> r == Some(s[|s| + i])
  {
    if 0 <= i < |s| then Some(s[i])
    else if -|s| <= i < 0 then Some(s[|s| + i])
    else None
  }

  /** The intensity table entry paintGL reads for a level: table[level - 10] */
  function Lookup(table: seq<real>, level: int): (r: Option<real>)
    ensures |table| == 19 ==> (r.Some? <==> -9 <= level <= 28)
  {
    PyIndex(table, level - 10)
  }

  /** Mirror images: the left table read backwards is the right table */
  lemma TablesMirror(i: nat)
    requires i < 19
    ensures |LeftIntensity| == |RightIntensity| == 19
    ensures LeftIntensity[i] == RightIntensity[18 - i]
  {
  }

  /** The left table never rises, the right table never falls, and every entry
      is an intensity between 0.1 and 1.0 */
  lemma TablesMonotone(i: nat, j: nat)
    requires i <= j < 19
    ensures LeftIntensity[j] <= LeftIntensity[i]
    ensures RightIntensity[i] <= RightIntensity[j]
    ensures 0.1 <= LeftIntensity[i] <= 1.0 && 0.1 <= RightIntensity[i] <= 1.0
  {
  }

  /** For a level in [-9, 9] the lookup table[level - 10] is a negative index
      that selects entry level + 9, which exists */
  lemma LookupInRange(table: seq<real>, level: int)
    requires |table| == 19
    requires -9 <= level <= 9
    ensures 0 <= level + 9 < |table|
    ensures Lookup(table, level) == Some(table[level + 9])
  {
  }

  /** The lookup succeeds exactly for levels -9 to 28; levels 10 to 28 index
      from the front and so read the same entry as level - 19 */
  lemma LookupDomain(table: seq<real>, level: int)
    requires |table| == 19
    ensures Lookup(table, level).Some? <==> -9 <= level <= 28
    ensures 10 <= level <= 28 ==> Lookup(table, level) == Lookup(table, level - 19)
  {
  }

  /** The eye names that select a shifted, intensity-scaled image */
  predicate IsLeftEye(eye: string)
  {
    eye == "LEFT" || eye == "LEFTSIM"
  }

  predicate IsRightEye(eye: string)
  {
    eye == "RIGHT" || eye == "RIGHTSIM"
  }

  /** Lateral offset of an eye from the viewer position, and brightness of its image */
  datatype EyeSetup = EyeSetup(xEye: real, intensity: real)

  function WithOffset(xEye: real, intensity: Option<real>): Option<EyeSetup>
  {
    match intensity
    case Some(k) => Some(EyeSetup(xEye, k))
    case None => None
  }

  /** The eye dispatch of paintGL; None when the table lookup raises */
  function SetupEye(eye: string, level: int): (r: Option<EyeSetup>)
    ensures r.None? ==> IsLeftEye(eye) || IsRightEye(eye)
    ensures r.Some? ==> r.value.xEye == -DEyes / 2.0 || r.value.xEye == 0.0 || r.value.xEye == DEyes / 2.0
  {
    if IsLeftEye(eye) then WithOffset(-DEyes / 2.0, Lookup(LeftIntensity, level))
    else if IsRightEye(eye) then WithOffset(DEyes / 2.0, Lookup(RightIntensity, level))
    else Some(EyeSetup(0.0, 1.0))
  }

  /** Left eyes sit half the eye distance to the left, right eyes half to the
      right; the simulated eyes behave as the real ones; any other eye sits on
      the viewer position at full intensity, whatever the level */
  lemma EyeOffsets(eye: string, level: int)
    requires -9 <= level <= 9
    ensures IsLeftEye(eye) ==> SetupEye(eye, level) == Some(EyeSetup(-DEyes / 2.0, LeftIntensity[level + 9]))
    ensures IsRightEye(eye) ==> SetupEye(eye, level) == Some(EyeSetup(DEyes / 2.0, RightIntensity[level + 9]))
    ensures !IsLeftEye(eye) && !IsRightEye(eye) ==> SetupEye(eye, level) == Some(EyeSetup(0.0, 1.0))
  {
    LookupInRange(LeftIntensity, level);
    LookupInRange(RightIntensity, level);
  }

  /** A frame with a stereo eye fails exactly when the level is outside -9 to 28;
      the mono eye never fails */
  lemma SetupEyeDefined(eye: string, level: int)
    ensures SetupEye(eye, level).Some? <==> (!IsLeftEye(eye) && !IsRightEye(eye)) || -9 <= level <= 28
  {
    LookupDomain(LeftIntensity, level);
    LookupDomain(RightIntensity, level);
  }

  /** Crosstalk balance: at every level at least one eye gets full intensity,
      at level 0 both do, and negating the level swaps the two eyes */
  lemma IntensityBalance(level: int)
    requires -9 <= level <= 9
    ensures SetupEye("LEFT", level).Some? && SetupEye("RIGHT", level).Some?
    ensures SetupEye("LEFT", level).value.intensity == 1.0 || SetupEye("RIGHT", level).value.intensity == 1.0
    ensures level == 0 ==> SetupEye("LEFT", level).value.intensity == 1.0 == SetupEye("RIGHT", level).value.intensity
    ensures SetupEye("LEFT", level).value.intensity == SetupEye("RIGHT", -level).value.intensity
  {
    EyeOffsets("LEFT", level);
    EyeOffsets("RIGHT", level);
    EyeOffsets("RIGHT", -level);
    TablesMirror(level + 9);
    TablesMonotone(level + 9, level + 9);
  }

  /** A viewer position */
  datatype Point = Point(x: real, y: real, z: real)

  /** The arguments of the off-axis projection routine: the physical screen
      size, the distances from the viewer to the near, focal and far planes,
      and the eye position in the screen plane */
  datatype Projection = Projection(width: real, height: real, near: real, focal: real, far: real,
                                   eyeX: real, eyeY: real)

  function ProjectionArgs(viewer: Point, xEye: real): (r: Projection)
    ensures r.width == ScreenWidth && r.height == ScreenHeight
    ensures r.eyeX - viewer.x == xEye && r.eyeY == viewer.y
    ensures r.focal - r.near == ZNear - ZFocal && r.far - r.focal == ZFocal - ZFar
  {
    Projection(ScreenWidth, ScreenHeight, viewer.z - ZNear, viewer.z - ZFocal, viewer.z - ZFar,
               viewer.x + xEye, viewer.y)
  }

  /** For a viewer in front of the near plane the three distances are positive
      and increase from near to far; for the fixed viewing distance they are
      0.6, 1.2 and 1.8 m */
  lemma DistancesOrdered(viewer: Point, xEye: real)
    requires viewer.z > ZNear
    ensures var pr := ProjectionArgs(viewer, xEye); 0.0 < pr.near < pr.focal < pr.far
    ensures viewer.z == ViewingDistance ==>
      var pr := ProjectionArgs(viewer, xEye); pr.near == 0.6 && pr.focal == 1.2 && pr.far == 1.8
  {
  }

  /** Everything paintGL derives for one eye */
  datatype View = View(eye: string, intensity: real, projection: Projection)

  function EyeView(eye: string, level: int, viewer: Point): (r: Option<View>)
    ensures r.Some? <==> SetupEye(eye, level).Some?
    ensures r.Some? ==> r.value.eye == eye && 0.1 <= r.value.intensity <= 1.0
    ensures r.Some? ==> -DEyes / 2.0 <= r.value.projection.eyeX - viewer.x <= DEyes / 2.0
    ensures r.Some? ==> r.value.projection == ProjectionArgs(viewer, 0.0).(eyeX := r.value.projection.eyeX)
  {
    match SetupEye(eye, level)
    case Some(s) => Some(View(eye, s.intensity, ProjectionArgs(viewer, s.xEye)))
    case None => None
  }

  /** The loop of paintGL over the view set; one failing eye fails the frame */
  function FrameViews(views: seq<string>, level: int, viewer: Point): (r: Option<seq<View>>)
    ensures r.Some? ==> |r.value| == |views|
    decreases |views|
  {
    if views == [] then Some([])
    else match (EyeView(views[0], level, viewer), FrameViews(views[1..], level, viewer))
      case (Some(v), Some(rest)) => Some([v] + rest)
      case _ => None
  }

  /** The frame succeeds exactly when every eye of the view set does, and then
      holds one view per eye, in order */
  lemma {:induction false} FrameViewsPerEye(views: seq<string>, level: int, viewer: Point)
    ensures FrameViews(views, level, viewer).Some? <==>
      forall k :: 0 <= k < |views| ==> EyeView(views[k], level, viewer).Some?
    ensures FrameViews(views, level, viewer).Some? ==>
      |FrameViews(views, level, viewer).value| == |views| &&
      forall k :: 0 <= k < |views| ==> FrameViews(views, level, viewer).value[k] == EyeView(views[k], level, viewer).value
    decreases |views|
  {
    if views != [] {
      FrameViewsPerEye(views[1..], level, viewer);
      assert forall k :: 1 <= k < |views| ==> views[k] == views[1..][k - 1];
    }
  }

  /** Stereo geometry: the two eyes of a pair look from points DEyes apart,
      centred on the viewer, through the same near, focal and far planes */
  lemma StereoPairGeometry(left: string, right: string, level: int, viewer: Point)
    requires IsLeftEye(left) && IsRightEye(right)
    requires -9 <= level <= 9
    ensures EyeView(left, level, viewer).Some? && EyeView(right, level, viewer).Some?
    ensures var l, r := EyeView(left, level, viewer).value.projection, EyeView(right, level, viewer).value.projection;
      r.eyeX - l.eyeX == DEyes && l.eyeX + r.eyeX == 2.0 * viewer.x && l.eyeY == r.eyeY == viewer.y &&
      l.near == r.near && l.focal == r.focal && l.far == r.far
  {
    EyeOffsets(left, level);
    EyeOffsets(right, level);
  }

  // View sets

  const Mono: seq<string> := ["ALL"]
  const StereoPair: seq<string> := ["LEFT", "RIGHT"]
  const SimulatedPair: seq<string> := ["LEFTSIM", "RIGHTSIM"]

  /** The view sets the widget can hold */
  predicate LegalViews(views: seq<string>)
  {
    views == Mono || views == StereoPair || views == SimulatedPair
  }

  function PairFor(sim: bool): seq<string>
  {
    if sim then SimulatedPair else StereoPair
  }

  /** toggleStereo: switch on, or switch from mono, to the (simulated) pair;
      otherwise back to mono */
  function ToggledViews(views: seq<string>, on: bool, sim: bool): (r: seq<string>)
    ensures LegalViews(r)
  {
    if on || |views| == 1 then PairFor(sim) else Mono
  }

  /** Toggling with on = false flips between mono and the pair chosen by sim,
      so two toggles restore mono or that pair; on = true always yields the pair */
  lemma ToggleAlternates(views: seq<string>, sim: bool)
    requires LegalViews(views)
    ensures ToggledViews(views, true, sim) == PairFor(sim)
    ensures (ToggledViews(views, false, sim) == Mono) <==> (views != Mono)
    ensures ToggledViews(views, false, sim) == if views == Mono then PairFor(sim) else Mono
    ensures views == Mono || views == PairFor(sim) ==>
      ToggledViews(ToggledViews(views, false, sim), false, sim) == views
  {
  }

  /** Every eye of a legal view set can be drawn at every level in [-9, 9] */
  lemma LegalViewsDrawable(views: seq<string>, level: int, viewer: Point)
    requires LegalViews(views)
    requires -9 <= level <= 9
    ensures FrameViews(views, level, viewer).Some?
    ensures |FrameViews(views, level, viewer).value| == |views|
  {
    FrameViewsPerEye(views, level, viewer);
    forall k | 0 <= k < |views| ensures EyeView(views[k], level, viewer).Some? {
      EyeOffsets(views[k], level);
    }
  }

  // Intensity level

  /** stereoIntensity: an absolute level is taken as it is; a relative step is
      taken only if the new level stays strictly between -10 and 10; with
      neither argument the source raises a TypeError, here None */
  function IntensityAfter(current: int, level: Option<int>, relative: Option<int>): (r: Option<int>)
    ensures r.Some? <==> level.Some? || relative.Some?
    ensures r.Some? && level.None? ==> r.value == current || -10 < r.value < 10
  {
    if level.Some? then Some(level.value)
    else if relative.None? then None
    else if -10 < current + relative.value < 10 then Some(current + relative.value)
    else Some(current)
  }

  /** A relative step changes the level exactly when the new level stays inside
      (-10, 10), and keeps a level in [-9, 9] there; an absolute level is set
      exactly */
  lemma IntensityStep(current: int, level: Option<int>, relative: Option<int>)
    ensures level.Some? ==> IntensityAfter(current, level, relative) == level
    ensures level.None? ==> (IntensityAfter(current, level, relative).Some? <==> relative.Some?)
    ensures level.None? && relative.Some? ==>
      (IntensityAfter(current, level, relative).value != current <==>
        relative.value != 0 && -10 < current + relative.value < 10)
    ensures level.None? && relative.Some? && -9 <= current <= 9 ==>
      -9 <= IntensityAfter(current, level, relative).value <= 9
  {
  }
}
