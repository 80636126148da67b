# SledBalls Field widget — a Dafny model

SledBalls shows balls that move in a box in front of a screen, seen in stereo
by a viewer whose position is tracked while a motion platform (the sled)
moves them. The `Field` widget in `field.py` holds the logic behind this.
This project models that logic in Dafny and proves properties of it:

- **Ball kinematics** (`move`). The time step is clamped to at most 0.1 s
  (`StepSize`). Each coordinate advances by `p + v·dt`. It then reflects
  elastically off the wall, axis by axis (`Reflect`, `CoordStep`). The
  reflection runs in place over `NBalls × 3` arrays (`Field.Move`). Its helpers
  are `Advanced`, `ReflectBall` and `ReflectAll`.
- **Stereo view parameters** (the eye dispatch in `paintGL`). Each eye name
  maps to a lateral eye offset and a crosstalk-compensation intensity. The
  intensity is read from two fixed 19-entry tables. The lookup uses Python
  list indexing, negative indices included. The same block builds the
  arguments passed to the off-axis projection routine: screen size, the
  near, focal and far distances, and the eye position (`ProjectionArgs`).
  `FrameViews` is the loop over the view set. One failing eye fails the whole
  frame.
- **Widget state.**
  - The view set, switched between mono and a stereo pair (`ToggledViews`,
    `Field.ToggleStereo`).
  - The stereo intensity level, a bounded counter (`IntensityAfter`,
    `Field.StereoIntensity`).
  - The viewer position, whose distance to the screen never changes
    (`Field.ViewerMove`).
  - The frame counter, which advances only while running (`Field.Paint`).

Modules: `Wrappers` (Option), `FieldGeometry` (the class constants and the
wall), `BallMotion`, `StereoView` and `FieldWidget` (the `Field` class and the
array loops of `move`).

Coordinates are Dafny `real`s. Some things come into the model as parameters:
- `move` reads a clock for the elapsed milliseconds. Here that is the
  parameter `elapsedMs` of `Move` and `Paint`. In `field.py` the `QTime`
  behind it (field.py:91) is never started or restarted, so the value is not
  a time between frames. The model takes it as an arbitrary integer and
  clamps it as `move` does.
- The constructor draws random initial velocities. Here they are the
  constructor argument `v0`. Its precondition is the support of the sampler,
  [-0.1, 0.1).

Notes on what `field.py` does:
- The intensity lookup is `table[level - 10]`. For levels -9 to 9 this is a
  negative Python index, and it selects entry `level + 9`, in [0, 18].
- `stereoIntensity(level=L)` sets any integer without a range check. Only
  relative steps are bounded. A level from 10 to 28 therefore reads the entry
  of `level - 19`. While the view set is a stereo pair, any other level outside
  -9 to 28 makes `paintGL` raise IndexError. The mono view set `('ALL',)` does
  no table lookup and never raises. `LookupDomain` and `SetupEyeDefined` state
  this. When a lookup raises, `Paint` returns None and changes nothing.
- `stereoIntensity()` called with neither argument raises TypeError. Here
  `IntensityAfter` returns None and `StereoIntensity` returns `ok = false`.
- `toggleStereo(on=False)` with the default `sim=False` is what the stereo
  menu action calls. From the simulated pair `('LEFTSIM', 'RIGHTSIM')` two
  such toggles lead to mono and then to `('LEFT', 'RIGHT')`. The menu toggle
  never gets back to the simulated pair.
- Default arguments become explicit parameters: `sim=False` of `toggleStereo`
  is an explicit `false`, and the omitted `y` of `viewerMove` and the omitted
  `level`/`relative` of `stereoIntensity` are `None`.

## Model

| member | source | states |
|---|---|---|
| FieldGeometry.WallWellFormed | field.py:72 | every axis of the wall is a proper interval that strictly contains the origin, where the balls start |
| FieldGeometry.WallNarrowestWidth | field.py:65-72 | every wall axis is at least 0.82 m wide, and the y axis is exactly that |
| FieldGeometry.DepthPlanesOrdered | field.py:60-63 | far plane < screen < near plane < viewer distance |
| BallMotion.StepSize | field.py:242 | the step is at most 0.1 s and non-negative for non-negative elapsed time; it equals elapsed/1000 up to 100 ms and 0.1 s beyond |
| BallMotion.ReflectPreservesSpeed | field.py:249-254 | reflection keeps the speed along the axis; a coordinate is left unchanged exactly when it is inside the wall; otherwise its position moves and its velocity is negated |
| BallMotion.ReflectSettles | field.py:245-254 | a coordinate that overshoots by at most the wall width lands inside after one reflection, and a second reflection changes nothing |
| BallMotion.StepStaysInside | field.py:245-254 | containment: inside before and a displacement of at most the wall width give inside after, with the same speed |
| BallMotion.OvershootEscapes | field.py:245-254 | without the displacement bound a single reflection can leave the ball outside the wall |
| BallMotion.ClampedStepFitsWall | field.py:242 | with a speed of at most 0.1 m/s and a clamped step, the displacement is at most 0.01 m, less than any wall width |
| BallMotion.Reflect | field.py:249-254 | the mirror-and-negate rule for one coordinate: the speed is kept, and a coordinate inside the wall is left as it is |
| BallMotion.CoordStep | field.py:245-254 | one coordinate through `move`: the Euler update, then the reflection when the walls are on; the speed is kept either way |
| StereoView.PyIndex | field.py:292 | Python list indexing: it succeeds exactly for indices from -len to len-1, and a negative index counts from the end |
| StereoView.Lookup | field.py:292-300 | `table[level-10]` on a 19-entry table succeeds exactly for levels -9 to 28 |
| StereoView.SetupEye | field.py:289-308 | the eye dispatch: it fails only for a stereo eye, and the offset is -dEyes/2, 0 or +dEyes/2 |
| StereoView.ProjectionArgs | field.py:311-314 | the projection arguments: the screen size, eye x = viewer x + offset, eye y = viewer y, and plane spacings that do not depend on the viewer |
| StereoView.EyeView | field.py:289-314 | one eye's view exists exactly when its dispatch succeeds; it carries that eye's name and an intensity in [0.1, 1.0]; its eye x lies within dEyes/2 of the viewer, and its screen size, height and three distances are those of the mono view |
| StereoView.FrameViews | field.py:287-314 | the loop over the view set gives one view per eye whenever it succeeds |
| StereoView.IntensityAfter | field.py:128-133 | the new intensity level: it fails exactly when neither argument is given, and a relative step either keeps the level or leads strictly inside (-10, 10) |
| StereoView.TablesMirror | field.py:292-300 | the left intensity table is the right one reversed |
| StereoView.TablesMonotone | field.py:292-300 | the left table is non-increasing, the right table non-decreasing, and all entries lie in [0.1, 1.0] |
| StereoView.LookupInRange | field.py:292 | for levels -9 to 9, `table[level-10]` selects entry `level+9`, which is in range |
| StereoView.LookupDomain | field.py:292-300 | the lookup succeeds exactly for levels -9 to 28; levels 10 to 28 read the same entry as level-19 |
| StereoView.EyeOffsets | field.py:289-308 | LEFT/LEFTSIM give offset -dEyes/2 and the left table entry; RIGHT/RIGHTSIM give +dEyes/2 and the right entry; any other eye gives offset 0 and intensity 1.0 |
| StereoView.SetupEyeDefined | field.py:289-308 | the eye dispatch succeeds exactly for a non-stereo eye or a level from -9 to 28 |
| StereoView.IntensityBalance | field.py:289-304 | at every level in [-9, 9] at least one eye gets 1.0; both do at level 0; negating the level swaps the eyes' intensities |
| StereoView.DistancesOrdered | field.py:311-314 | for a viewer in front of the near plane, 0 < near < focal < far; at the fixed viewing distance these are 0.6, 1.2 and 1.8 m |
| StereoView.FrameViewsPerEye | field.py:287-314 | the frame's views exist exactly when every eye's view does, and then there is one view per eye, in order |
| StereoView.StereoPairGeometry | field.py:289-314 | the two eyes of a pair are dEyes apart, centred on the viewer, at the same height and with the same three distances |
| StereoView.ToggledViews | field.py:113-124 | the view set after toggleStereo is always mono, the pair or the simulated pair |
| StereoView.ToggleAlternates | field.py:113-124 | on=true always yields the pair chosen by sim; with on=false mono becomes that pair and any other set becomes mono; two such toggles restore mono or that same pair (not the other pair) |
| StereoView.LegalViewsDrawable | field.py:287-308 | every eye of every view set toggleStereo can produce is drawable at every level in [-9, 9] |
| StereoView.IntensityStep | field.py:128-133 | an absolute level is set exactly; a relative step changes the level exactly when the result is inside (-10, 10), so a level in [-9, 9] stays there; with neither argument the call fails |
| FieldWidget.Field.constructor | field.py:60-98 | balls start at the origin with the drawn velocities (field.py:92-95), the viewer at (0, 0, 1.2) (field.py:60), walls on (field.py:73); the class attributes give mono view (field.py:112), level 0 (field.py:127) and frame 0 (field.py:258); not running; the field starts contained |
| FieldWidget.Field.ToggleStereo | field.py:113-124 | the view set becomes `ToggledViews(old views, on, sim)` and stays a legal view set |
| FieldWidget.Field.StereoIntensity | field.py:128-133 | the level becomes `IntensityAfter(old level, level, relative)`, is unchanged when that fails, and stays in [-9, 9] under relative steps |
| FieldWidget.Field.ViewerMove | field.py:137-144 | the viewer becomes (x, y or 0, old z); the viewing distance is unchanged |
| FieldWidget.Field.Move | field.py:240-254 | every coordinate of every ball becomes `CoordStep` of its old position and velocity; a contained field stays contained when the walls are on and elapsed time is non-negative |
| FieldWidget.Field.SteppedStaysContained | field.py:245-254 | stepping every coordinate of a contained field with a clamped non-negative step keeps every ball inside the wall and every speed within bound |
| FieldWidget.Field.Paint | field.py:287-348 | the frame's views are `FrameViews` of the view set, level and viewer; only when they exist and the widget is running does nFrame increase by one and the balls move; otherwise nothing changes |
| FieldWidget.Advanced | field.py:245 | the new position array is `p + v·dt`, coordinate by coordinate |
| FieldWidget.ReflectBall | field.py:248-254 | each coordinate of ball i is reflected off its wall axis; other balls are unchanged |
| FieldWidget.ReflectAll | field.py:247-254 | every coordinate of every ball is reflected off its wall axis |

## Left out

- OpenGL work: shaders, buffer objects, viewports, uniform uploads and draw calls (field.py:185-238, parts of 283-341). These are GPU side effects.
- The projection routine `transforms.arjan` is not part of this model. Only the arguments passed to it are modelled.
- Qt glue: status-bar messages, enabling of the left/right menu actions, `update()`, `mouseMoveEvent`, `resizeGL`, `quit`. sledballs.py (menus, full screen, command line, the start/stop toggle of `running`) is not part of this model.
- `connectSledServer`, `connectPositionServer` and the position-client read at the start of `paintGL` (field.py:270-280). These are network and hardware clients. The viewer moves only through `ViewerMove`.
- The frames-per-second counter in `paintGL` (field.py:261-267). It depends on the wall clock.
- The random draw of the initial velocities (field.py:92-94) becomes a constructor argument. sampling_test.py is not part of this model.
- float32 rounding of ball coordinates. Coordinates are exact reals.
- `Field.Paint` abandons a frame whose intensity lookup raises. For a view set whose second eye fails, it does not model the GL drawing already done for the first eye.
- In the source, `pViewer` is a numpy array that all widgets share as a class attribute. Here each `Field` owns its own array.
- The `ballCollide` flag (always False, never read).
- Trial phases, target selection, response scoring, trial logging, the virtual-spring motion model and collision-free initial placement. field.py has none of them.
