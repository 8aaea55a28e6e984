# Overfill geometry of the predictive-overfilling simulation

A head-mounted display renders each eye's frame for a predicted head pose.
When the actual pose differs by an orientation error, the rendered frame must
be larger than the nominal viewport so that nothing is clipped. The Unity
editor script `OverfillingSimulationEditor` computes that margin. It builds:

1. the nominal viewport, a square at depth z = 1 with half-width `tan(fov/2)`;
2. the min-overfill quad, made by projecting each viewport corner, rotated by
   the orientation error, back onto the plane z = 1;
3. the axis-aligned bounding box of that quad;
4. the overfill rect, which is that box squared by widening its shorter side
   symmetrically;
5. the overhead, which is the square's area over the viewport's area, minus one.

This project models that pipeline in Dafny over `real` and proves its
geometric guarantees. There are two modules:

- `UnityMath` (`UnityMath.dfy`) holds the parts of Unity's maths library the
  editor uses:
  - `Vector3` and `Quaternion`;
  - quaternion-times-vector, written as Unity's rotation-matrix formula;
  - `Mathf.Min`/`Mathf.Max` over an array, `Mathf.Max` on two values and
    `Mathf.Abs` on one.
- `OverfillingSimulation` (`OverfillingSimulation.dfy`) holds the `Quad`
  struct, the five steps above, and `Simulate`, the whole pass of the scene
  hook.

The half-width `tan(fov/2)` is an input to the model. The tangent itself is
not computed.

The editor does not check the orientation error. If a rotated viewport
corner has depth exactly 0, line 96 divides by zero, and the float pipeline
goes on with infinities or NaN. The model does not reproduce that.
`MinOverfillVertex` requires a non-zero depth. `Simulate` returns
`Err(DegenerateOrientation)` in exactly that case. A negative rotated depth
is not an error in the code: the division is defined and the quad is finite.
The model follows the code here and returns a quad for it.

## Model

| member | source | states |
|---|---|---|
| `OverfillingSimulation.HmdViewport` | Assets/Scripts/OverfillingSimulationEditor.cs:24-30 | The viewport lies on z = 1, is axis-aligned, has width = height = 2·halfWidth, and is centred on the forward axis. |
| `OverfillingSimulation.ViewportBounds` | Assets/Scripts/OverfillingSimulationEditor.cs:24-30 | For halfWidth ≥ 0, the viewport's bounding box is [−h, h] × [−h, h]. |
| `UnityMath.RotateScale` | Assets/Scripts/OverfillingSimulationEditor.cs:96 | Quaternion-times-vector commutes with scaling: q·(s·v) = s·(q·v). |
| `UnityMath.RotateAdd` | Assets/Scripts/OverfillingSimulationEditor.cs:96 | Quaternion-times-vector is additive, so together with `RotateScale` it is linear. |
| `UnityMath.RotateKeepsAxis` | Assets/Scripts/OverfillingSimulationEditor.cs:96 | `predictError * v`, Unity's rotation-matrix formula: a quaternion whose vector part lies along one coordinate axis keeps the coordinate of v along that axis (a roll about the forward axis keeps the depth z). |
| `UnityMath.RotateIdentity` | Assets/Scripts/OverfillingSimulationEditor.cs:35-41 | The identity quaternion leaves every vector unchanged. |
| `OverfillingSimulation.MinOverfillVertex` | Assets/Scripts/OverfillingSimulationEditor.cs:95-97 | It requires the rotated direction to have non-zero depth, because line 96 divides by it. The vertex then has z = 1 and lies on the line through the origin and the rotated direction (on the opposite half-line when the rotated depth is negative). |
| `OverfillingSimulation.OnRotatedLineUnique` | Assets/Scripts/OverfillingSimulationEditor.cs:95-97 | Only one point at depth 1 lies on that line, so `MinOverfillVertex`'s contract determines the vertex completely. |
| `OverfillingSimulation.IdentityVertex` | Assets/Scripts/OverfillingSimulationEditor.cs:96 | Under the identity quaternion, a direction with z = 1 is its own vertex. |
| `OverfillingSimulation.MinOverfillQuad` | Assets/Scripts/OverfillingSimulationEditor.cs:36-41 | Every corner of the min-overfill quad is at z = 1. Each corner lies on the line through the origin and the matching rotated viewport corner (on the opposite half-line when its rotated depth is negative). |
| `OverfillingSimulation.RollIsProjectable` | Assets/Scripts/OverfillingSimulationEditor.cs:36-41 | A pure roll (a quaternion with no x and y part) keeps every viewport corner's rotated depth at 1, so every corner can be projected. |
| `OverfillingSimulation.IdentityMinOverfill` | Assets/Scripts/OverfillingSimulationEditor.cs:36-41 | With no orientation error, the min-overfill quad is the nominal viewport. |
| `UnityMath.MinOf` | Assets/Scripts/OverfillingSimulationEditor.cs:46-51 | The result is at most every element and equals one of them. |
| `UnityMath.MaxOf` | Assets/Scripts/OverfillingSimulationEditor.cs:52-63 | The result is at least every element and equals one of them. |
| `OverfillingSimulation.BoundsOf` | Assets/Scripts/OverfillingSimulationEditor.cs:46-69 | Every corner lies inside [left, right] × [bottom, top], and some corner attains each of the four sides. |
| `OverfillingSimulation.BoundsUnique` | Assets/Scripts/OverfillingSimulationEditor.cs:46-69 | A box that contains every corner and touches one on each side is exactly the computed box. |
| `OverfillingSimulation.BoundsPermutationInvariant` | Assets/Scripts/OverfillingSimulationEditor.cs:46-69 | If two quads have the same multiset of corners, they have the same (left, top, right, bottom). |
| `UnityMath.Abs` | Assets/Scripts/OverfillingSimulationEditor.cs:73 | The result is non-negative and equals a or −a. |
| `OverfillingSimulation.HalfDiff` | Assets/Scripts/OverfillingSimulationEditor.cs:73 | halfDiff is never negative. |
| `UnityMath.Max` | Assets/Scripts/OverfillingSimulationEditor.cs:76 | The result is at least both arguments and equals one of them. |
| `OverfillingSimulation.OverfillRect` | Assets/Scripts/OverfillingSimulationEditor.cs:71-89 | The rect is an axis-aligned square at z = 1 with side max(width, height), centred on the box. It crops no side of the box. The longer axis is kept exactly. |
| `OverfillingSimulation.OverfillRectTie` | Assets/Scripts/OverfillingSimulationEditor.cs:79-89 | When width = height, halfDiff is 0 and both branches build the same quad. |
| `OverfillingSimulation.OverfillRectBounds` | Assets/Scripts/OverfillingSimulationEditor.cs:79-89 | For a proper box, the rect's own bounding box is a square of side max(width, height) and encloses the box. |
| `OverfillingSimulation.Squared` | Assets/Scripts/OverfillingSimulationEditor.cs:76-77 | `Mathf.Pow(x, 2)` is never negative. |
| `OverfillingSimulation.Overhead` | Assets/Scripts/OverfillingSimulationEditor.cs:75-77 | It requires halfWidth ≠ 0. (overhead + 1) × viewport area equals the overfill rect's area, and overhead ≥ −1. |
| `OverfillingSimulation.OverheadZeroIff` | Assets/Scripts/OverfillingSimulationEditor.cs:75-77 | The overhead is 0 exactly when max(width, height) equals the viewport side 2·halfWidth. |
| `OverfillingSimulation.OverheadNonNegative` | Assets/Scripts/OverfillingSimulationEditor.cs:75-77 | If the box encloses the nominal viewport, the overhead is ≥ 0. The box the pass computes need not enclose the viewport, so this does not cover every pass. |
| `OverfillingSimulation.Simulate` | Assets/Scripts/OverfillingSimulationEditor.cs:23-93 | It fails with `DegenerateOrientation` exactly when some rotated viewport corner has depth 0. Otherwise the result holds the viewport (z = 1, side 2·halfWidth, centred), the min-overfill quad (each corner at z = 1 on its rotated corner's line), the box (contains every corner, touches one on each side), the overfill rect (square at z = 1 of side max(width, height), centred on the box, cropping none of it) and the overhead as the rect's extra area over the viewport. |
| `OverfillingSimulation.SimulateRoll` | Assets/Scripts/OverfillingSimulationEditor.cs:23-93 | For a pure roll the pass always succeeds. |
| `OverfillingSimulation.SoundUnique` | Assets/Scripts/OverfillingSimulationEditor.cs:23-93 | Two results that both meet `Simulate`'s guarantee for the same inputs are equal, so that guarantee fixes every quad, the box and the overhead. |
| `OverfillingSimulation.RectSoundUnique` | Assets/Scripts/OverfillingSimulationEditor.cs:79-89 | Depth, squareness, side max(width, height) and centre fix every corner of the overfill rect. |
| `OverfillingSimulation.ExtraAreaUnique` | Assets/Scripts/OverfillingSimulationEditor.cs:75-77 | For halfWidth ≠ 0 the extra-area equation has one solution, so it fixes the overhead. |
| `OverfillingSimulation.SimulateIdentity` | Assets/Scripts/OverfillingSimulationEditor.cs:24-89 | Under the identity quaternion the pass succeeds. The min-overfill quad and the overfill rect both equal the viewport, and the overhead is 0. |

## Left out

- `OnEnable` (lines 12-21) is left out. It registers the scene-view callback and sets up label styles, which is editor lifecycle code.
- `renderHMDFrustum`, `renderMinOverfill` and `renderOverfillRect` (lines 99-150) are left out. They only draw handles. The per-edge angle label (`Atan`, `Rad2Deg`, `string.Format`) is presentation code with transcendental maths.
- `Quad.rect` and `Quad.sides` (lines 165-199) are left out. They only build vertex arrays for drawing.
- `Mathf.Tan(fov / 2 * Deg2Rad)` (line 24) is not modelled. The half-width is an input, and `Simulate` requires it to be positive, which is what a field of view strictly between 0° and 180° gives.
- The `hmd`, `minOverfillQuad` and `overfillRect` toggles (lines 31, 42, 90) are left out. They only decide what is drawn.
- Single-precision float rounding is not modelled. Nor are the infinities and NaN the code produces when a rotated depth is 0. The model works over exact reals and reports that case as `DegenerateOrientation`.
- `MinOf`/`MaxOf` require a non-empty array. `Mathf.Min`/`Mathf.Max` return 0 for an empty array, and the editor always passes four values.
- `UnityMath.Rotate` is Unity's rotation-matrix formula. Unity's library source is not part of this model. The model proves the matrix linear, which is all the z = 1 property needs. It does not prove that the matrix equals q v q* for a unit quaternion.
- Two properties are not modelled: that the overhead grows with the size of the rotation angle, and golden values for particular angles. Both need trigonometry over the angle, and the model takes only quaternions.
- `Simulate` returns a quad, not an error, when a rotated viewport corner has negative depth, because the code divides by that depth and goes on. For example, at halfWidth 1 a 179° yaw (a turn about the up axis) puts every rotated corner at negative depth and gives a finite quad whose corners lie on the opposite half-lines. Other near-half-turns may mix positive and negative depths, or put a corner at depth exactly 0. Only a depth of exactly 0 gives `DegenerateOrientation`.
- `OverheadNonNegative` proves overhead ≥ 0 only for a box that encloses the nominal viewport. The box of a rotated quad often does not: with halfWidth 1 and the unit quaternion (0, 20/101, 0, 99/101), a yaw of about 23°, the model's formulas put the box's left side at about −0.41, inside −1. Overhead ≥ 0 for every pass is not proved; the model proves only overhead ≥ −1 (`Overhead`) and overhead = 0 exactly when the square's side is 2·halfWidth.
- Running the pipeline twice on the same input always gives the same result. This needs no lemma, because every member is a function of its arguments.
