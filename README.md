# Camera input and transformation pipeline — a Dafny model

This project models the core of a small OpenGL demo (`laba2/laba2_13`):

- the **camera** (`camera.h`, `camera.cpp`): a position, a viewing direction
  (`m_target`) and an up vector, a horizontal and a vertical angle in degrees,
  four screen-edge flags, the last integer pointer position and a fixed window
  size. Key presses move the position. A mouse move turns the camera by the
  pointer delta over 20 and sets or clears the edge flags by a 10-pixel margin.
  The per-frame tick keeps turning by 0.1 degree while an edge flag is set.
  After each turn, `Update` regenerates the direction and up vectors from the
  two angles;
- the **pipeline** (`pipeline.cpp`): `GetTrans` multiplies six 4×4 matrices:
  projection · camera rotation · camera translation · world translation ·
  rotation · scale. It stores the product in `m_transformation` and returns it.

Files:

- `vectors.dfy` (module `Vectors`): 3D vectors over exact reals with
  addition, scaling and the cross product. `VectorOps` holds the library
  operations that need square roots or trigonometry: normalise, rotate about
  an axis, and arcsine in degrees. The model takes them as parameters.
- `matrices.dfy` (module `Matrices`): `Mat4` over `real` with the explicit
  row-major product and the action on a column vector. It proves that
  `(a·b)·v = a·(b·v)` and that the product is associative.
- `pipeline.dfy` (module `TransformPipeline`): the six stages, their
  composition, the `Pipeline` class and `GetTrans`. The `Init*Transform`
  initialisers are parameters (`MatrixInits`).
- `camera.dfy` (module `CameraModel`): `CamState` is the camera's state as a
  value. `KeyboardMove`, `MouseMove` and `RenderTick` are pure specifications
  of the three events. The `Camera` class has the source's fields and
  imperative methods, each proved equal to its specification. A ghost
  counter `updates` records every run of `Update`. The window size is a
  `const` field, so no method can change it.
- `camera_properties.dfy` (module `CameraProperties`): lemmas that relate
  several events. These cover forward/back and left/right cancelling, the
  net-travel law for pointer moves, the vertical range kept by any number of
  ticks, and the edge-flag invariant.

The `Camera` event methods (`OnKeyboard`, `OnMouse`, `OnRender`) require `Valid()`, the edge-flag invariant
`EdgesConsistent`. It says a flag is only set while the last recorded pointer
position lies in that flag's margin. Both constructors and `Init` establish
it, every event method (`OnKeyboard`, `OnMouse`, `OnRender`) keeps it, and
`Update` leaves it as it found it, so every camera the program can build
satisfies it. One
consequence (`ConsistentEdgesExclusive`) is that the left and right flags are
never set together, and neither are the upper and lower flags. So the tick's
"left beats right" and "upper beats lower" choices are modelled and proved,
but input can never make them matter.

Where the code and its own comments disagree, the model follows the code:

- The comment after the tick (camera.cpp:220-221) says the vertical angle stays
  between −90 and +90 degrees. The guard in `OnRender` tests the angle *before*
  the 0.1 step, so the angle can reach −90.05 (`VerticalStepCanPassLimit`).
  Ticks alone keep the range [−90.1, 90.1] (`RenderTicksKeepVerticalRange`).
  A mouse move adds DeltaY/20 to the vertical angle with no guard
  (camera.cpp:151), so one move can leave that range too
  (`MouseLeavesVerticalRange`): nothing limits the vertical angle.
- The header comment (camera.h:8) says the default camera looks toward
  decreasing Z. The default constructor uses (0, 0, 1).
- `Init` computes the horizontal angle of the quadrant x < 0, z < 0 as
  90 + asin(−z), which breaks the symmetry of the other three quadrants (see
  "## Findings"). `Init` is modelled with that formula; the mirrored formula
  is kept beside it as a reference definition with its properties proved.

## Model

| member | source | states |
|---|---|---|
| `Vectors.CrossAntiCommutative` | laba2/laba2_13/laba2_13/camera.cpp:118-128 | `up × target` is the negation of `target × up`; this is why the left and right strafe vectors are opposite |
| `Matrices.ApplyMul` | laba2/laba2_13/laba2_13/pipeline.cpp:17-20 | multiplying a column vector by a product equals multiplying by the right factor first, then by the left one |
| `Matrices.Extensionality` | laba2/laba2_13/laba2_13/pipeline.cpp:20 | two matrices that act alike on the four unit vectors are equal |
| `Matrices.MulAssociative` | laba2/laba2_13/laba2_13/pipeline.cpp:20 | the 4×4 product is associative, so the grouping of the six-factor product does not matter |
| `TransformPipeline.ComposeRightNested` | laba2/laba2_13/laba2_13/pipeline.cpp:20 | the left-grouped product PersProj·CamRot·CamTrans·Trans·Rot·Scale equals the right-grouped one |
| `TransformPipeline.ComposeAppliesInOrder` | laba2/laba2_13/laba2_13/pipeline.cpp:17-20 | the composed matrix applied to v equals scale, rotation, translation, camera translation, camera rotation and projection applied one after another, scale first |
| `TransformPipeline.TransformationAppliesInOrder` | laba2/laba2_13/laba2_13/pipeline.cpp:9-20 | the same for the matrices built from the pipeline parameters: scale, rotation and translation take the x, y, z of their vectors; the camera translation takes the negated camera position; the camera rotation takes Target and Up; the projection takes FOV, Width, Height, zNear, zFar in that order |
| `TransformPipeline.CameraTranslationSubtractsPosition` | laba2/laba2_13/laba2_13/pipeline.cpp:12 | with the conventional translation matrix, the camera translation maps every world point q to q − Pos and the camera itself to the origin |
| `TransformPipeline.OnlyCameraTranslationSeesPosition` | laba2/laba2_13/laba2_13/pipeline.cpp:9-15 | changing the camera position changes only the camera-translation stage; the camera rotation depends on Target and Up alone |
| `TransformPipeline.Pipeline.GetTrans` | laba2/laba2_13/laba2_13/pipeline.cpp:4-21 | writes only `transformation`, stores the six-stage product of the current parameters there, and returns that matrix |
| `TransformPipeline.GetTransTwice` | laba2/laba2_13/laba2_13/pipeline.cpp:4-21 | two calls with unchanged parameters return the same matrix |
| `CameraModel.HalfTowardZero` | laba2/laba2_13/laba2_13/camera.cpp:78-79 | C++ `n / 2` on an int truncates toward zero: the remainder has the sign of n and is at most 1 in magnitude |
| `CameraModel.Initialized` | laba2/laba2_13/laba2_13/camera.cpp:73-79 | after Init no edge flag is set and the pose is kept; the pointer is at the window centre (width/2, height/2) with truncating division, so for a non-negative window size it lies inside the window |
| `CameraModel.Camera.Default` | laba2/laba2_13/laba2_13/camera.cpp:10-20 | the default camera stores the window size, sits at the origin, looks along normalise(0,0,1) with the up vector (0,1,0) left unnormalised, and is initialised by Init |
| `CameraModel.Camera.constructor` | laba2/laba2_13/laba2_13/camera.cpp:23-36 | the explicit camera stores the window size and Pos unchanged, normalises Target and Up, and is initialised by Init |
| `CameraModel.Camera.Init` | laba2/laba2_13/laba2_13/camera.cpp:39-82 | the horizontal angle from the normalised XZ projection of the direction by quadrant with the formula as written (90 + asin(−z) in the quadrant x < 0, z < 0), the vertical angle as −asin of its y component, all four edge flags false, the pointer at (width/2, height/2) with truncating division; the pose is unchanged, the edge-flag invariant holds and Update does not run |
| `CameraModel.Reoriented` | laba2/laba2_13/laba2_13/camera.cpp:225-252 | Update changes only the direction and up vectors, and they are a function of the two angles alone |
| `CameraModel.Camera.Update` | laba2/laba2_13/laba2_13/camera.cpp:225-252 | the imperative Update produces the `Reoriented` state, keeps the edge-flag invariant exactly as it found it, and counts one update |
| `CameraModel.KeyboardMove` | laba2/laba2_13/laba2_13/camera.cpp:86-137 | the key is handled exactly when it is UP, DOWN, LEFT or RIGHT; UP adds the direction scaled by the step size to the position, DOWN subtracts it, LEFT adds the normalised `target × up` scaled by the step size and RIGHT the normalised `up × target`; any other key changes nothing; any key changes at most the position |
| `CameraModel.Camera.OnKeyboard` | laba2/laba2_13/laba2_13/camera.cpp:86-138 | the method returns true exactly for the four arrow keys, reaches the `KeyboardMove` state and does not run Update |
| `CameraModel.EdgeRule` | laba2/laba2_13/laba2_13/camera.cpp:155-181 | a nonzero delta clears both flags of the axis; delta 0 at or below the margin sets the low flag and keeps the high one; delta 0 at or beyond extent − margin (and past the low margin) sets the high flag and keeps the low one; delta 0 in between keeps both |
| `CameraModel.MouseMove` | laba2/laba2_13/laba2_13/camera.cpp:141-184 | the pointer becomes (x, y); each angle grows by its delta over 20; the flags follow `EdgeRule` on each axis independently; the position is kept; direction and up are regenerated from the new angles |
| `CameraModel.Camera.SetHorizontalEdges` | laba2/laba2_13/laba2_13/camera.cpp:155-168 | the nested ifs on DeltaX and x give the left/right flags of `EdgeRule` and touch nothing else |
| `CameraModel.Camera.SetVerticalEdges` | laba2/laba2_13/laba2_13/camera.cpp:170-181 | the nested ifs on DeltaY and y give the upper/lower flags of `EdgeRule` and touch nothing else |
| `CameraModel.Camera.OnMouse` | laba2/laba2_13/laba2_13/camera.cpp:141-184 | the method reaches the `MouseMove` state, keeps the edge-flag invariant and runs Update exactly once |
| `CameraModel.MouseMovePreservesConsistency` | laba2/laba2_13/laba2_13/camera.cpp:155-181 | a mouse move keeps every set flag inside its margin |
| `CameraModel.RenderTick` | laba2/laba2_13/laba2_13/camera.cpp:188-222 | the horizontal angle moves by exactly −0.1 if the left flag is set, else +0.1 if the right flag is set, else not at all; the vertical angle goes down by exactly 0.1 when, and only when, the upper flag is set and the angle is above −90, and up by exactly 0.1 when, and only when, the lower flag is set, the upper is not, and the angle is below 90, whatever the horizontal flags; it moves by 0 or 0.1 and stays in [−90.1, 90.1] if it started there; Update runs exactly when the tick turns (`TickTurns`), and that is exactly when an angle changed; otherwise nothing changes; the position, flags and pointer are never changed |
| `CameraModel.Camera.OnRender` | laba2/laba2_13/laba2_13/camera.cpp:188-222 | the method, with its `ShouldUpdate` local, reaches the `RenderTick` state and runs Update exactly when `RenderTick` reports a turn |
| `CameraModel.Camera.GetPos` | laba2/laba2_13/laba2_13/camera.h:26-29 | returns the position and modifies nothing |
| `CameraModel.Camera.GetTarget` | laba2/laba2_13/laba2_13/camera.h:31-34 | returns the direction and modifies nothing |
| `CameraModel.Camera.GetUp` | laba2/laba2_13/laba2_13/camera.h:36-39 | returns the up vector and modifies nothing |
| `CameraProperties.UpDownCancel` | laba2/laba2_13/laba2_13/camera.cpp:96-108 | UP then DOWN, and DOWN then UP, restore the whole state |
| `CameraProperties.RightStepIsNegatedLeftStep` | laba2/laba2_13/laba2_13/camera.cpp:116-133 | the RIGHT displacement is the negated LEFT displacement when normalising commutes with negation on nonzero vectors and the direction is not parallel to up |
| `CameraProperties.LeftRightCancel` | laba2/laba2_13/laba2_13/camera.cpp:116-133 | LEFT then RIGHT, and RIGHT then LEFT, restore the whole state when normalising commutes with negation on nonzero vectors and the direction is not parallel to up |
| `CameraProperties.KeyboardMovePreservesConsistency` | laba2/laba2_13/laba2_13/camera.cpp:86-137 | a key press keeps the edge-flag invariant |
| `CameraProperties.MouseTurnsByNetTravel` | laba2/laba2_13/laba2_13/camera.cpp:144-151 | after any sequence of mouse moves, the last position is recorded, each angle has grown by (last − first recorded coordinate)/20 whatever the path, and the position is kept |
| `CameraProperties.MouseMovesPreserveConsistency` | laba2/laba2_13/laba2_13/camera.cpp:141-184 | any sequence of mouse moves keeps the edge-flag invariant |
| `CameraProperties.ConsistentEdgesExclusive` | laba2/laba2_13/laba2_13/camera.cpp:195-215 | under the invariant, left and right are never both set, and neither are upper and lower |
| `CameraProperties.MovingPointerStopsEdgeTurning` | laba2/laba2_13/laba2_13/camera.cpp:155-219 | a move that changes both coordinates clears every flag, so the next tick changes nothing and does not run Update |
| `CameraProperties.PointerAwayFromMarginsClearsFlags` | laba2/laba2_13/laba2_13/camera.cpp:155-219 | under the edge-flag invariant, a move to a point away from every margin, whether the pointer moved or repeated its position, leaves no flag set, so the next tick does not turn: a flag never outlives the pointer's stay in its margin |
| `CameraProperties.MouseLeavesVerticalRange` | laba2/laba2_13/laba2_13/camera.cpp:144-151 | the mouse handler does not limit the vertical angle: in a 1024×768 window, from a consistent state with the pointer at (512, 10), the upper flag set and the angle at −90, a move to (512, 0) keeps the invariant and gives −90.5, outside [−90.1, 90.1] |
| `CameraProperties.RenderTicksKeepVerticalRange` | laba2/laba2_13/laba2_13/camera.cpp:204-215 | starting in [−90.1, 90.1], any number of ticks keeps the vertical angle in that range |
| `CameraProperties.RenderTicksKeepInput` | laba2/laba2_13/laba2_13/camera.cpp:188-222 | any number of ticks keeps the flags, the pointer and the position |
| `CameraProperties.RenderTicksAtLeftEdge` | laba2/laba2_13/laba2_13/camera.cpp:195-198 | with the left flag set, n ticks lower the horizontal angle by exactly n × 0.1 |
| `CameraProperties.VerticalStepCanPassLimit` | laba2/laba2_13/laba2_13/camera.cpp:204-209 | the guard tests the angle before the step: from −89.95 under the upper flag one tick gives −90.05 |
| `CameraProperties.RenderTickPreservesConsistency` | laba2/laba2_13/laba2_13/camera.cpp:188-222 | a tick keeps the edge-flag invariant |
| `CameraProperties.InitializedConsistent` | laba2/laba2_13/laba2_13/camera.cpp:73-79 | a freshly initialised camera satisfies the edge-flag invariant |
| `CameraProperties.QuadrantAngleBands` | laba2/laba2_13/laba2_13/camera.cpp:45-66 | if the arcsine in degrees maps [0, 1] into [0, 90], each quadrant of the horizontal direction gets its own quarter of [0, 360], both with the formula as written (90 + asin(−z) lies in [90, 180]) and with the mirrored one |
| `CameraProperties.QuadrantAngleMirror` | laba2/laba2_13/laba2_13/camera.cpp:45-66 | with the corrected formula, the angles of (x, z) and (−x, z) add up to 180 or 540 degrees |
| `CameraProperties.QuadrantAngleAsWrittenBreaksMirror` | laba2/laba2_13/laba2_13/camera.cpp:62-65 | with the formula as written, the angles of (−0.8, −0.6) and (0.8, −0.6) add up to neither 180 nor 540 |
| `CameraProperties.QuadrantAnglesAgreeElsewhere` | laba2/laba2_13/laba2_13/camera.cpp:45-61 | the formula as written and the corrected one agree outside the quadrant x < 0, z < 0 |

## Findings

| source | as written | input that shows it | evidently intended | confidence | as-written member | corrected member |
|---|---|---|---|---|---|---|
| laba2/laba2_13/laba2_13/camera.cpp:64 | for a horizontal direction with x < 0 and z < 0, `m_AngleH = 90 + asin(-z)` in degrees | target (−0.8, 0, −0.6): the code gives 90 + 36.87 = 126.87; its mirror image (0.8, 0, −0.6) gets 36.87, and the two other quadrants are mirrored around 270 (sums of 540), so 143.13 is expected; the branch also disagrees with its neighbours on the axes (90 instead of 180 as z → 0⁻, 180 instead of 90 as x → 0⁻) | `m_AngleH = 180 - asin(-z)`, the mirror image of the x ≥ 0, z < 0 branch | not executed; high | `CameraModel.QuadrantAngleAsWritten`, shown by `CameraProperties.QuadrantAngleAsWrittenBreaksMirror` | `CameraModel.QuadrantAngle`, a reference definition with the mirror property proved by `CameraProperties.QuadrantAngleMirror` |

## Left out

- The host program `laba2/laba2_12/laba2_12/laba2_12.cpp` is not part of this model. It only sets up the window, compiles shaders, uploads buffers and runs the render callback.
- `glutWarpPointer` in `Init` is left out. It moves the host's pointer and has no effect on the camera's state.
- Vector normalisation, rotation about an axis and `ToDegree(asin(·))` are parameters (`VectorOps`). Their library is not part of this model, and they need square roots and trigonometry. `Update` is written out over these parameters. The model therefore states which state Update produces from the two angles, not the resulting vectors.
- The five `Init*Transform` matrix initialisers are parameters (`MatrixInits`), for the same reason. The matrix product and the cross product are written out.
- Single-precision float rounding is not modelled. Angles and components are exact reals, so `0.1f` and `/20.0f` are exact.
- Integer overflow of the pointer deltas is not modelled. Pointer coordinates are unbounded `int`s.
- The GLUT arrow-key codes (LEFT 100, UP 101, RIGHT 102, DOWN 103) are the freeglut values. The GLUT header is not part of this model.
- The `Pipeline` setters and default values live in `pipeline.h`, which is not part of this model. Its constructor here takes all parameters, and they are public fields.
- `GetPos`, `GetTarget`, `GetUp` return a copy of the field, where the source returns a `const Vector3f&` to the live field. A caller holding that reference would see later moves; that aliasing is not modelled.
- `GetTrans` returns the matrix by value instead of a pointer to the field. A caller holding the pointer across a later call is not modelled.
- `LeftRightCancel`, `RightStepIsNegatedLeftStep`: these hold only when normalising commutes with negation on nonzero vectors (`NormalizeIsOdd`), which is true of division by the Euclidean length but is a premise here, and only when the direction is not parallel to up. When it is, the sideways vector is zero, its normalisation divides by zero and the program's position becomes NaN; the model does not say what a strafe does then.
- `CameraTranslationSubtractsPosition`: this holds only when the translation initialiser builds the conventional translation matrix. That is a premise here.
- `QuadrantAngleBands`: this holds only when the arcsine in degrees maps [0, 1] into [0, 90] and the normalised horizontal z lies in [−1, 1]. Both are premises here. The program may not meet the first exactly: camera.cpp:2 defines `M_PI` as 3.14159, and if `ToDegree` (in the math library, not part of this model) divides by that value, the arcsine of 1 comes out near 90.00015 degrees, so the bands can be overshot by about 1.5e-4 degree.
- The library properties (unit length after normalising, rotation round trips, the zero Euler rotation being the identity, a positive clip-space w) concern the matrix and vector library. That library is not part of this model.
