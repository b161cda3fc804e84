# Blobs: shape cycle and per-frame vertex displacement

This project models the logic of the "blobs" widget: one mesh that is a
box, a sphere or a torus. A click or touch advances the shape. On every
animation frame each vertex is recomputed from a reference copy of the
geometry, scaled by a simplex-noise sample and a pointer-proximity factor.
The mesh is also rotated by the pointer position through a linear `map`
helper.

The model has four modules:

- `Geometry` (geometry.dfy): the blob kinds and their string tags. It holds
  the rotation box → sphere → torus → box and the vertex density taken from
  the viewport width. It also holds the geometry parameters the rendering
  library is asked to build.
- `Displacement` (displacement.dfy): the `map` helper and the proximity
  factor. It also has the rotation angles, the noise ratio and the frame
  function `Displace`. `Displace` gives the live vertices from the reference
  vertices alone.
- `BlobWidget` (blobs.dfy): the widget as a class. Its fields are the
  viewport size, the pointer, the reference distance and the current kind.
  It also keeps the current geometry, the live vertex buffer (an array
  rewritten in place every frame) and the snapshot dictionary of reference
  vertices. `SetupBlob` fills the snapshot in a loop (`RecordReference`). `UpdateVertices`
  rewrites the buffer in a loop, and its result is proved equal to
  `Displace` of the snapshot.
- `RealArith` (arith.dfy): small facts of real arithmetic used by the
  proofs.

Modelling decisions:

- All arithmetic is on exact reals. The source computes in IEEE doubles.
- The noise generator is a function parameter `noise3`. Its range [-1, 1]
  is the predicate `NoiseBounded`. Only the bound lemmas assume it; nothing
  proves it.
- The square root in `distance` is not computed. `IsDistance(d, …)` states
  that `d` is the non-negative number whose square is dx² + dy². The
  reference distance and the current pointer distance come in as
  parameters that meet it.
- The rendering library's geometry constructors are a parameter
  `build: Shape -> seq<Vec3>`. A geometry is the record of its constructor
  arguments (`Shape`).
- `_originalVertices` is a plain object used as a dictionary. The source
  never clears it, so it is a `map<nat, Vec3>`. After a switch to a
  geometry with fewer vertices, the entries above the new vertex count are
  kept, unused (`Snapshot`).
- `nextBlobGeometry` takes a string, so the model parses the tag
  (`ParseTag`) and models the unknown-tag branch. The field itself holds a
  `BlobKind`, since the widget only ever stores one of the three tags.
- The current-kind field starts at `'box'` (src/index.ts:31). The
  constructor's `setupBlob` (line 44) advances it through the cycle, so the
  first blob shown is a sphere (lines 111-113).
- A resize does not update the reference distance `_maxDist`. The resize
  handler computes a local value and drops it. The model keeps this
  behaviour. `StaleReferenceDistance` shows its effect: after the viewport
  grows, a pointer at the origin gives a negative proximity factor.

## Model

| member | source | states |
|---|---|---|
| `Geometry.ParseTag` | src/index.ts:107-118 | a recognised tag is exactly the tag of the kind returned; an unknown result means the string is none of 'box', 'sphere', 'torus' |
| `Geometry.Tag` | src/index.ts:108-115 | every tag the widget stores is one of 'box', 'sphere', 'torus', the strings the switch compares against |
| `Geometry.ParseTagOfTag` | src/index.ts:108-116 | every tag the widget stores is recognised as the kind it was stored for |
| `Geometry.NextKind` | src/index.ts:108-116 | the rotation never stays on the same kind |
| `Geometry.IterateStep` | src/index.ts:108-116 | one more step of the rotation applies the switch once more to the kind reached so far |
| `Geometry.ThreeStepsReturn` | src/index.ts:108-116 | three advances bring any kind back to itself |
| `Geometry.CyclePeriod` | src/index.ts:108-116 | after any number of advances, three more land on the same kind (period three) |
| `Geometry.CycleVisitsAll` | src/index.ts:108-116 | any three consecutive advances visit every kind |
| `Geometry.FirstClicks` | src/index.ts:31-44 | starting from a box, the first four advances give sphere, torus, box, sphere |
| `Geometry.Density` | src/index.ts:106 | density is 80 or 40, and 80 exactly when the width exceeds 575 (so 575 gives 40) |
| `Geometry.ShapeFor` | src/index.ts:108-116 | the geometry built for a kind is of that kind |
| `Geometry.UniformDensity` | src/index.ts:106-116 | every segment argument of the chosen geometry is the one density |
| `Displacement.Map` | src/index.ts:7-9 | the input minimum maps to the output minimum and the input maximum to the output maximum |
| `Displacement.MapBetween` | src/index.ts:7-9 | an input between the input endpoints gives an output between the output endpoints |
| `Displacement.MapInverse` | src/index.ts:7-9 | mapping back with the intervals swapped returns the original input |
| `Displacement.IsDistance` | src/index.ts:11-16 | the distance is the non-negative root of dx² + dy², and it is the same whichever point comes first |
| `Displacement.DistanceUnique` | src/index.ts:11-16 | the distance between two points is uniquely determined by them |
| `Displacement.Proximity` | src/index.ts:200-203 | the proximity factor `map(d / maxDist, 1, 0, 0, 1)` equals 1 - d / maxDist |
| `Displacement.ProximityRange` | src/index.ts:200-203 | within the reference distance the factor is in [0, 1], 1 at the centre and 0 at the reference distance |
| `Displacement.StaleReferenceDistance` | src/index.ts:183-187 | the reference distance is positive, and after the viewport grows a pointer at the origin gives a negative proximity factor |
| `Displacement.RotationRanges` | src/index.ts:220-221 | rotation y is -4 at x = 0 and 0 at x = width, rotation z is 4 at y = 0 and 0 at y = height, and inside the viewport they stay in [-4, 0] and [0, 4] |
| `Displacement.RotationY` | src/index.ts:220 | the y rotation is -4 with the pointer at the left edge and 0 at the right edge |
| `Displacement.RotationZ` | src/index.ts:221 | the z rotation is 4 with the pointer at the top edge and 0 at the bottom edge |
| `Displacement.NoiseAt` | src/index.ts:207-211 | the sample taken at a reference point and time lies in [-1, 1] whenever the generator does |
| `Displacement.Ratio` | src/index.ts:212 | zero noise gives the resting ratio 0.8; with noise in [-1, 1] and proximity in [0, 1] the ratio is in [0.47, 1.13] |
| `Displacement.DisplaceVertex` | src/index.ts:205-213 | a vertex at the origin stays there; with bounded noise and proximity in [0, 1] the vertex is its reference point scaled about the origin by a ratio in [0.47, 1.13] |
| `Displacement.Displace` | src/index.ts:204-214 | a frame has exactly as many vertices as the reference |
| `Displacement.DisplaceAt` | src/index.ts:204-213 | live vertex i is reference vertex i scaled by the ratio of the noise sampled at reference vertex i |
| `Displacement.DisplaceLocal` | src/index.ts:204-213 | no coupling between indices: equal reference vertices give equal live vertices, whatever the rest of either buffer holds |
| `Displacement.DisplaceBounded` | src/index.ts:207-213 | with bounded noise and proximity in [0, 1], each live vertex is its reference point scaled about the origin by a ratio in [0.47, 1.13] |
| `Displacement.ScaleBounds` | src/index.ts:212-213 | scaling by a ratio in [0.47, 1.13] keeps the sign of every coordinate, and each magnitude stays between 0.47 and 1.13 times the reference |
| `BlobWidget.Snapshot` | src/index.ts:125-128 | indices below the vertex count hold copies of the new vertices; entries above it keep their earlier values; no other key appears |
| `BlobWidget.SnapshotRoundTrip` | src/index.ts:125-128 | reading back the first n entries of a fresh snapshot gives exactly the geometry's n vertices |
| `BlobWidget.Blobs.constructor` | src/index.ts:25-75 | the pointer starts at the origin, the reference distance is measured from there to the viewport centre (line 75), the first blob is a sphere whose snapshot is built from an empty dictionary and equals its vertices, and its mesh starts unrotated (line 44 leads to line 138) |
| `BlobWidget.Blobs.NextBlobGeometry` | src/index.ts:105-120 | a known tag moves the kind to the next one and returns that kind's geometry at the current density; an unknown tag returns a sphere and leaves the kind unchanged |
| `BlobWidget.Blobs.SetupBlob` | src/index.ts:122-138 | the kind advances, a fresh buffer holds the new geometry's vertices, the snapshot holds an independent copy of each one, and the new mesh built at line 138 starts unrotated |
| `BlobWidget.Blobs.RecordReference` | src/index.ts:125-128 | the loop leaves the snapshot dictionary equal to `Snapshot` of its old contents and the live vertices |
| `BlobWidget.Blobs.UpdateVertices` | src/index.ts:198-216 | the buffer keeps its length and becomes `Displace` of the reference vertices, whatever it held before; the snapshot is not modified |
| `BlobWidget.Blobs.Render` | src/index.ts:218-223 | the mesh rotation follows the pointer by the two maps, and the vertices are displaced as in `UpdateVertices` |
| `BlobWidget.Blobs.OnResize` | src/index.ts:179-189 | the viewport size is updated and the reference distance keeps its old value |
| `BlobWidget.ClickSequence` | src/index.ts:170-176 | a new widget of any viewport size shows a sphere, and the next three clicks show torus, box, sphere |
| `BlobWidget.ClickKind` | src/index.ts:170-176 | after any number of clicks on a new widget the kind on screen is the rotation iterated once more than the clicks from the tag of a box, so it has period three in the clicks |
| `BlobWidget.ReplayFrame` | src/index.ts:204-213 | a frame at one time, then one at another time, then one at the first time again, leaves the same buffer as the first frame (nothing accumulates) |

## Left out

- Scene, renderer, fog, camera, lights and shadow plane set-up, material and mesh construction, adding and removing the mesh, `clear` and `render`, and the resize handler's renderer, camera and canvas calls (src/index.ts:37-41, 43, 45, 52-74, 76-103, 123, 129-155, 181-182, 185-186, 188, 224-225, 230): these are calls into the rendering library with no logic of their own. The constructor's own `setupBlob` call (line 44) and the reference distance (line 75) are modelled.
- The vertex positions Three.js generates for a box, sphere or torus: the `build` parameter stands for them.
- Pointer easing through TweenMax, and the registration of the mouse, touch, click and resize listeners (src/index.ts:46-48, 157-169, 171, 175-177, 191-193): these are asynchronous I/O. The click handler's `setupBlob` call (lines 172-174) is modelled as a call to `SetupBlob`. The model keeps the pointer fields, which the constructor sets to the origin. Nothing in the model writes them afterwards, and a frame reads whatever they hold.
- `requestAnimationFrame` scheduling and `renderScene` (src/index.ts:219, 228-231): this is timing. `Render` models one frame, with the time as a parameter.
- The spring scale (src/index.ts:29, 222): nothing in the source drives it, so the mesh scale stays 1.
- `verticesNeedUpdate` (src/index.ts:215): this is only a flag for the rendering library.
- The unused `maxDist` arrow function (src/index.ts:196).
- The simplex-noise internals (src/index.ts:207): `noise3` is a parameter, and its range is assumed, not proved.
- The square root inside `distance` (src/index.ts:14): it is stated by the relation `IsDistance`, not computed.
- IEEE double rounding, infinities and NaN: all arithmetic is on exact reals.
- Displacement.Map: requires distinct input endpoints. The source divides by zero there and gets an infinity or NaN, which reals cannot represent. For the same reason, `UpdateVertices` requires a non-zero reference distance and `Render` requires a non-zero viewport width and height.
- Vector3 objects as shared references: each vertex is a value, so aliasing between the geometry, the mesh and the vector objects is not modelled. The source's `clone` already makes the snapshot independent.
