# OnlyUpSMO, modelled in Dafny

OnlyUpSMO builds "Only Up" climbing stages for Super Mario Odyssey. For each
kingdom it draws a long chain of platforms, each reachable from the one
before by a recorded Mario or Cappy jump. It places them with a randomised
search that backtracks to checkpoints, and it writes the result as a stage
archive. This project models the core of that program:

- **The placement engine** (`generator.dfy`, `segments.dfy`,
  `trajectory.dfy`):
  - the jump trajectories and the `Jump.is_possible` test;
  - the segment kinds with their platform counters, the Timer segment's
    switch-target list, and the segment-switching rule;
  - `Generator.generate`'s history of platform groups and jumps, with its
    zone checkpoints, commits and reverts.
- **The KCL collision layer** (`kcl.dfy`): the header and section
  arithmetic of the Nintendo KCL layout over a byte sequence, and the
  20-byte triangle record with its reconstruction from the vertex,
  direction, normals and length. It also covers the models' bounding boxes,
  `union`, any-model intersection, and the standable-surface search.
- **The geometry primitives** (`vec.dfy`, `aabb.dfy`): `Vec`'s operators,
  with Python's dispatch on the operand's type, and the `AABB` operations.
- **Object bookkeeping** (`stage.dfy`, `ids.dfy`):
  - object ids and the position and translate offsets;
  - lazy link sets and the shared default lists;
  - the memoised collision cache;
  - the factory helpers.
- **Key conversion** (`serializer.dfy`, `reformat.dfy`, `yaml.dfy`): the
  serializer's snake_case to CamelCase rewrite with its component merge
  (including the in-place rewrite of the component fields the merge
  leaves behind) and number wrapping, and the driver's CamelCase to snake_case rewrite.
  Both work over insertion-ordered dictionaries.
- **The driver** (`driver.dfy`): the difficulty tables and the chain of
  stages `generate_only_up_stage` sets up.
- **The small parsers** (`datasets.dfy`): OBJ vertex lines into
  trajectories, jump folders, and kingdom names from dataset file names.

Floats are `real`. Trigonometry, `sqrt`, the CGAL distance query and
Python's `random` are oracles with their stated ranges:

- a rotation is a (cos, sin) pair on the unit circle;
- `random()` is a stream of values in [0, 1) consumed in order;
- a model's squared distance function is a field of the model.

Code that updates state in place is modelled as classes and methods whose
`ensures` tie the new state to specification functions. The properties
are proved about those functions. The classes are:

- the generator's history, the segments and the random stream;
- the id counters and the collision cache;
- the KCL file reader.

The code disagrees with the program's own description in five places,
and the model follows the code:

- `Vec.distance_to` is three-dimensional;
- the trajectory constructor's guard compares by identity, so it always
  subtracts the first point;
- the Cappy sweep is built from the Mario points;
- the comment at src/main.py:165 says the seed offset makes the segment
  choices differ for each kingdom, but the offset is the sum of the
  configuration name's characters, so every kingdom of a configuration is
  seeded alike (`Driver.ChainLinks`);
- the `--seed` help text (src/main.py:190) promises that a seed always
  produces the same level, but the seed goes through Python's `hash` of a
  string, which is salted per process unless `PYTHONHASHSEED` is fixed;
  the model takes the hashed value as the parameter `hashSeed`.

## Model

| member | source | states |
|---|---|---|
| Vec.AtExtensional | src/math/vec.py:12-22 | two vectors whose three `get_data()` components agree are equal |
| Vec.Plus | src/math/vec.py:50-58 | `a + x` is componentwise for a vector, adds the scalar to each component for an int or float, and raises ValueError exactly for any other operand |
| Vec.Minus | src/math/vec.py:73-81 | `a - x` is componentwise, or subtracts the scalar; ValueError exactly for other operands |
| Vec.Times | src/math/vec.py:63-71 | `a * x` is the Hadamard product for a vector, scales by an int or float, and raises ValueError exactly for other operands |
| Vec.Divide | src/math/vec.py:86-94 | `a / x` divides componentwise; ValueError for other operands, ZeroDivisionError exactly when some divisor component is zero |
| Vec.Neg | src/math/vec.py:83-84 | `-a` is `Vec(0,0,0) - a` |
| Vec.NegComponents | src/math/vec.py:83-84 | `-a` negates each component |
| Vec.SubSelf | src/math/vec.py:73-75 | `v - v` is the zero vector |
| Vec.ZeroRPlus | src/math/vec.py:60-61 | `0 + v` gives `v` through `__radd__` |
| Vec.PySumComponentwise | src/math/vec.py:50-61 | `sum()` of a non-empty list of vectors is a vector whose components are the componentwise sums; `sum([])` is the integer 0 |
| Vec.PySumThree | src/file_format/kcl.py:122 | `sum([a, b, c])`, the centroid numerator, is `(a + b) + c` |
| Vec.RotateY | src/math/vec.py:31-36 | `rotate_y` keeps the y component |
| Vec.RotateYPreservesHorizontalLength | src/math/vec.py:31-36 | with cos² + sin² = 1, `rotate_y` preserves x² + z² |
| Vec.RotateYIdentity | src/math/vec.py:31-36 | the angle zero leaves a vector unchanged |
| Vec.DotSymmetric | src/math/vec.py:47-48 | `a.dot(b) == b.dot(a)` |
| Vec.DotSelfNonNegative | src/math/vec.py:47-48 | `v.dot(v) >= 0` |
| Vec.Normalize | src/math/vec.py:41-45 | `normalize()` raises ZeroDivisionError exactly for a zero length; otherwise the result times the length gives back `v` |
| Vec.DotScale | src/math/vec.py:47-48 | the dot product is linear in a scaled argument |
| Vec.CrossPerpendicular | src/file_format/kcl.py:82-83 | the cross product used by the triangle reconstruction is perpendicular to both factors |
| Aabb.Union | src/math/aabb.py:8-12 | the union encloses both boxes and is enclosed by every box that encloses both |
| Aabb.UnionCommutative | src/math/aabb.py:8-12 | `a.union(b) == b.union(a)` |
| Aabb.UnionIdempotent | src/math/aabb.py:8-12 | `a.union(a) == a` |
| Aabb.UnionAssociative | src/math/aabb.py:8-12 | union is associative, so folding it over models does not depend on grouping |
| Aabb.UnionOrdered | src/math/aabb.py:8-12 | the union of two boxes with min ≤ max has min ≤ max |
| Aabb.Translate | src/math/aabb.py:20-24 | `translate(p)` keeps the extent, moves the center by `p`, keeps min ≤ max, and `q` is in the box exactly when `q + p` is in the moved box |
| Aabb.ScaleBox | src/math/aabb.py:26-30 | `scale(s)` keeps the center and multiplies each extent by `s` |
| Aabb.ScaleOne | src/math/aabb.py:26-30 | `scale(1)` is the identity |
| Aabb.ScaleOrdered | src/math/aabb.py:26-30 | `scale(s)` with `s >= 0` keeps min ≤ max |
| Aabb.MaxDim | src/math/aabb.py:32-33 | `max_dim()` is at least every axis extent and equals one of them |
| Aabb.SqDistSum | src/math/aabb.py:35-41 | `dmin` is the sum of the three per-axis contributions |
| Aabb.SqDistInside | src/math/aabb.py:35-41 | `dmin` is 0 when the center is inside the box |
| Aabb.SqDistOutsideBelow | src/math/aabb.py:35-41 | no point of the box is closer to the center than `dmin` (squared) |
| Aabb.SqDistOutsideAttained | src/math/aabb.py:35-41 | for a box with min ≤ max, `dmin` is the squared distance to the nearest point of the box |
| Aabb.IntersectsAsWritten | src/math/aabb.py:35-46 | the loop accumulates `dmin` and the result is `dmin <= sphere_radius` |
| Aabb.AsWrittenMissesOverlap | src/math/aabb.py:43-46 | a sphere of radius 3 whose center is 2 from the unit box overlaps it but is rejected |
| Aabb.SphereIntersects | src/math/aabb.py:35-46 | the corrected test: true exactly when some point of the box is within the radius |
| Aabb.NoPointWithin | src/math/aabb.py:35-46 | `dmin > r²` means no point of the box is within `r` of the center |
| Kcl.U16LE | src/file_format/kcl.py:70-73 | a little-endian `H` is below 2^16 |
| Kcl.U32LE | src/file_format/kcl.py:29 | a little-endian `I` is below 2^32 |
| Kcl.I32LE | src/file_format/kcl.py:46 | a little-endian `i` is a 32-bit two's-complement value, negative exactly when the top bit is set |
| Kcl.DecodeEncodeU32 | src/file_format/kcl.py:29 | decoding the little-endian encoding of a u32 gives it back |
| Kcl.EncodeDecodeU32 | src/file_format/kcl.py:29 | encoding a decoded 4-byte group gives the bytes back |
| Kcl.MagicBytes | src/file_format/kcl.py:27-28 | the bytes 02 02 00 00 are the magic read big-endian, and are not read little-endian |
| Kcl.Slice | src/file_format/kcl.py:27-33 | `file.read(n)` yields at most `n` bytes, fewer only at the end of the file, and exactly the `n` bytes at the offset when they exist |
| Kcl.Reader.Read | src/file_format/kcl.py:27-33 | a read returns that slice and advances the offset by its length |
| Kcl.Reader.Seek | src/file_format/kcl.py:35 | a seek succeeds exactly for a non-negative offset and moves there |
| Kcl.Reader.ReadVec | src/file_format/kcl.py:58 | three floats at the offset, or StructError on a short read; the offset advances by 12 |
| Kcl.FileHeaderAt | src/file_format/kcl.py:26-33 | the header parses exactly when 52 bytes are present and the magic read big-endian is 0x02020000; another magic raises AssertionError, a short file StructError |
| Kcl.ReadFileHeader | src/file_format/kcl.py:26-33 | the header reads give `FileHeaderAt` |
| Kcl.SectionCountBounds | src/file_format/kcl.py:57 | each section count is the number of whole elements between two offsets, and none when they are closer than one element (see also lines 61, 65) |
| Kcl.VecsFrom | src/file_format/kcl.py:58 | the comprehension yields `n` vectors or StructError, succeeding exactly when all `12n` bytes are present (see also line 62) |
| Kcl.VecsFromIndex | src/file_format/kcl.py:58 | vector `i` is the one at `start + 12i` (see also line 62) |
| Kcl.ReadVecs | src/file_format/kcl.py:56-62 | the seek and the reads give `VecsAt`, leaving the file after the last vector |
| Kcl.ReadModelHeader | src/file_format/kcl.py:45-51 | the header reads give `ModelHeaderAt` |
| Kcl.ReadSections | src/file_format/kcl.py:45-65 | the header and the two vector loops give `SectionsAt`, leaving the file at the triangle records |
| Kcl.Reconstruct | src/file_format/kcl.py:82-86 | reconstruction raises ZeroDivisionError exactly when a denominator is zero; otherwise v1 is the stored vertex |
| Kcl.ReconstructEdges | src/file_format/kcl.py:77-86 | v2 − v1 is perpendicular to normal B and the direction, v3 − v1 to normal A and the direction, and both have dot product `length` with normal C |
| Kcl.EdgeIdentities | src/file_format/kcl.py:85-86 | one edge `cross * (length / dot(cross, c))` has those three dot products |
| Kcl.Face | src/file_format/kcl.py:77-89 | an out-of-range index raises IndexError; otherwise the face is the reconstruction from the looked-up vectors and its normal is the direction normal |
| Kcl.Extend | src/file_format/kcl.py:68-89 | the first error stops the triangle loop; otherwise the face and its normal are appended |
| Kcl.FacesUpTo | src/file_format/kcl.py:68-89 | `i` records yield `i` triangles and `i` normals, all within the file |
| Kcl.FacesUpToStep | src/file_format/kcl.py:68-89 | one more record extends the run by the face at `start + 20i` |
| Kcl.FacesUpToRecord | src/file_format/kcl.py:68-89 | triangle `j` and normal `j` are the face of record `j`, in record order |
| Kcl.FacesUpToErrStays | src/file_format/kcl.py:68-89 | once a record fails, every longer run fails with the same error |
| Kcl.ReadFace | src/file_format/kcl.py:69-89 | one record read gives `FaceAt` and advances the file by 20 |
| Kcl.ReadFaces | src/file_format/kcl.py:68-89 | the loop gives `FacesUpTo` and leaves the file `20 * count` further |
| Kcl.Model.TryStandable | src/file_format/kcl.py:115-123 | no triangles raises; otherwise the drawn face gives None exactly when its normal's dot product with the target is below the threshold, and else its centroid and normal |
| Kcl.Centroid | src/file_format/kcl.py:122 | the centroid is `sum()` of the three corners divided by 3 |
| Kcl.SqrtComparison | src/file_format/kcl.py:113 | `sqrt(d) <= r` is exactly `r >= 0 && d <= r*r` |
| Kcl.IntersectsMonotone | src/file_format/kcl.py:109-113 | a model hit at radius `r` is hit at every larger radius |
| Kcl.Corners | src/file_format/kcl.py:102-103 | the corner list has three entries per triangle |
| Kcl.CornersIndex | src/file_format/kcl.py:102-103 | corner `i` of triangle `k` is at position `3k + i` |
| Kcl.FoldMinBounds | src/file_format/kcl.py:102 | the min-`reduce` is below every point and each component is some point's |
| Kcl.FoldMaxBounds | src/file_format/kcl.py:103 | the max-`reduce` is above every point and each component is some point's |
| Kcl.MakeModel | src/file_format/kcl.py:96-104 | a model without triangles raises TypeError; otherwise it keeps its vertices, triangles, normals and distance query |
| Kcl.ModelBox | src/file_format/kcl.py:101-104 | the model's box holds every triangle corner and each of its faces touches a corner |
| Kcl.ParseModelAt | src/file_format/kcl.py:44-91 | a parsed model has a triangle and the file ends up after the last record |
| Kcl.ParseModelParts | src/file_format/kcl.py:44-91 | a parsed model is the model built from the sections and the output of the triangle loop |
| Kcl.ParseModelShape | src/file_format/kcl.py:44-91 | one triangle and one face normal per record, the vertex table is the vertex section, and the box holds every corner |
| Kcl.ParseModel | src/file_format/kcl.py:44-91 | the method's outcome and final offset are those of the parse at the starting offset |
| Kcl.CollisionData.Union | src/file_format/kcl.py:142-143 | `union` lists self's models then other's, and its box encloses both boxes |
| Kcl.HitsUnion | src/file_format/kcl.py:142-149 | the union is hit exactly when one of the operands is |
| Kcl.HitsMonotone | src/file_format/kcl.py:145-149 | a hit at radius `r` is a hit at every larger radius |
| Kcl.Intersects | src/file_format/kcl.py:145-149 | the loop returns true exactly when some model intersects |
| Kcl.Search | src/file_format/kcl.py:151-166 | a position found by the retry loop is the centroid of an upward enough face whose standing actor touches nothing |
| Kcl.GetRandomStandablePos | src/file_format/kcl.py:151-166 | the method follows `Search` over 10000 tries, so any position it returns is standable |
| Kcl.ModelsBy | src/file_format/kcl.py:37-39 | a successful run yields `count` models |
| Kcl.ModelsByStep | src/file_format/kcl.py:37-39 | the first parse's error stops the run; otherwise its model comes first and the rest starts where it ended |
| Kcl.ModelsByNonEmpty | src/file_format/kcl.py:37-39 | every model of a successful run has a triangle |
| Kcl.ModelsFromNonEmpty | src/file_format/kcl.py:37-39 | every model read from a file has a triangle |
| Kcl.ReadModels | src/file_format/kcl.py:37-39 | the loop gives `ModelsBy` from the starting offset |
| Kcl.CollisionDataAt | src/file_format/kcl.py:22-41 | a header error is the result's error; otherwise the box is the header's, there are `model_count` models and each has a triangle |
| Kcl.CollisionDataAfterHeader | src/file_format/kcl.py:35-41 | once the header is read, the collision data is the models parsed from `model_offset + 4` |
| Kcl.GetCollisionData | src/file_format/kcl.py:22-41 | the method gives `CollisionDataAt` |
| Kcl.ParserOfParses | src/file_format/kcl.py:44-91 | the file's own parser answers for `__parse_model` at every offset |
| Trajectories.ScaleAll | src/generator/generator.py:23 | each point is multiplied by the factor, in order |
| Trajectories.FromPoints | src/generator/generator.py:13-17 | an empty list raises IndexError; otherwise every point has the first point subtracted, whatever the first point is (the guard compares by identity) |
| Trajectories.FromPointsNormalises | src/generator/generator.py:13-17 | the first point becomes the origin and every difference of two points is kept |
| Trajectories.FromPointsIdempotent | src/generator/generator.py:13-17 | constructing a trajectory from a normalised list changes nothing |
| Trajectories.Scaled | src/generator/generator.py:22-23 | `scale(k)` keeps the length and multiplies each point by `k` |
| Trajectories.ScaledByOne | src/generator/generator.py:22-23 | `scale(1)` is the identity |
| Trajectories.ScaledTwice | src/generator/generator.py:22-23 | scaling by `a` then `b` is scaling by `a * b` |
| Trajectories.ScaledKeepsOrigin | src/generator/generator.py:22-23 | scaling keeps a trajectory starting at the origin |
| Trajectories.Endpoint | src/generator/generator.py:19-20 | `endpoint()` is the last point; IndexError exactly for an empty trajectory |
| Trajectories.EndpointScaled | src/generator/generator.py:19-23 | the endpoint of a scaled trajectory is the scaled endpoint |
| Trajectories.SweepHitsSome | src/generator/generator.py:25-30 | with collision data, the sweep hits exactly when some point, rotated about Y and added to the start, collides at the radius |
| Trajectories.SweepHitsNone | src/generator/generator.py:25-30 | an object without collision data makes a non-empty sweep raise AttributeError |
| Trajectories.SweepHitsErr | src/generator/generator.py:25-30 | a failing collision load fails every non-empty sweep with its error |
| Trajectories.JumpHits | src/generator/generator.py:63-65 | a jump hits exactly when the Mario sweep at radius 180 and the Cappy sweep at radius 90, both from start + (0,582,0), both hit |
| Trajectories.SweepMonotone | src/generator/generator.py:25-30 | a sweep hit at a radius is a hit at every larger radius |
| Trajectories.JumpHitsIsCappySweep | src/generator/generator.py:487-488 | with both trajectories built from the Mario points, a jump hits exactly when its radius-90 sweep does |
| Trajectories.MissesFirstsSpec | src/generator/generator.py:50-53 | the first loop succeeds exactly when the jump hits no group's first object |
| Trajectories.MissedByAllSpec | src/generator/generator.py:56-59 | the second loop succeeds exactly when no earlier jump hits the new object |
| Trajectories.IsPossibleSpec | src/generator/generator.py:48-61 | `is_possible` holds exactly when the jump hits no `obj[0]` and no earlier jump hits `obj2` |
| Trajectories.IsPossibleEmptyGroup | src/generator/generator.py:50-51 | an empty group raises IndexError |
| Segments.ClassNameInjective | src/generator/generator.py:379 | two segments have the same class name exactly when they are of the same kind (see also lines 403-406) |
| Segments.Env.constructor | src/generator/generator.py:356-360 | the shared environment keeps the generator, counter, defaults, cache and oracles it is given |
| Segments.LowestAt | src/generator/generator.py:309 | the `reduce` ends on a lowest point, the last one among equals |
| Segments.HighestAt | src/generator/generator.py:316 | the `reduce` ends on a highest point, the last one among equals |
| Segments.Lowest | src/generator/generator.py:309 | the lowest of the points; an empty list raises TypeError |
| Segments.Highest | src/generator/generator.py:316 | the highest of the points; an empty list raises TypeError |
| Segments.StandableOn | src/generator/generator.py:114-116 | an object without collision raises AttributeError; otherwise the search over 10000 tries runs, and any point it returns is standable facing up |
| Segments.PokeablePositions | src/generator/generator.py:320-325 | twenty standable positions facing +z, or the first failure |
| Segments.MovingPlatform | src/generator/generator.py:151-157 | a key-move platform from the first point to the second, and a `RailDrawer` whose rail runs through both points |
| Segments.DefaultMoves | src/generator/generator.py:144-145 | the moving-platform test holds exactly when moving is allowed, this is not the last platform, the draw is below 0.4, the previous platform does not move on keys, and the collision box is under 1000; the draw is skipped when the first two fail; a missing collision raises |
| Segments.DefaultMoving | src/generator/generator.py:146-158 | a platform moving at a speed in [7, 15] with its rail drawer; a zero jump offset raises ZeroDivisionError |
| Segments.CreateDefault | src/generator/generator.py:143-162 | two objects exactly when the test holds, else one fixed platform; either way the first is `name` at `pos` with the comment `DefaultSegment` |
| Segments.CreateLavaBubble | src/generator/generator.py:264-279 | a draw below 0.5 gives a platform moving at a speed in [3, 6] with its rail drawer, otherwise a fixed platform |
| Segments.CreatePokio | src/generator/generator.py:330-340 | one platform moving along +x by 250 to 700 at a speed in [3, 6] |
| Segments.MarkTargets | src/generator/generator.py:193-196 | every platform becomes a link destination commented `TimerSegment` and is appended to the timer's targets, in order |
| Segments.MoeEyeStart | src/generator/generator.py:232-243 | five lifts around a point 500 along x, then the Megane capture 50 above it |
| Segments.LavaBubbleStart | src/generator/generator.py:281-287 | the bubble capture moving from 300 above a point 250 along x down to it, and the lava lane 350 below |
| Segments.PokioStart | src/generator/generator.py:342-347 | the platform at the start, the Tsukkun capture 150 above it and the wall 250 behind |
| Segments.CreateClosing | src/generator/generator.py:226-230 | with one platform left, the kind's fixed closing platform (the Pokio one 1750 lower and 500 back) and no draw; otherwise the kind's platform at `pos` (see also lines 261-263, 327-329) |
| Segments.Segment.constructor | src/generator/generator.py:78-80 | the counter starts at a `randint` in Default [7,11], Timer [4,6], MoeEye [5,6], LavaBubble [7,9] or Pokio [3,4]; a timer also draws `cappyless` and its inner segment's count (see also lines 134, 171-173, 215, 250, 292) |
| Segments.Segment.ObjectSet | src/generator/generator.py:137-138 | default and timer segments use the kingdom's objects; the others their fixed lists (see also lines 176-177, 217-218, 252-253, 294-295) |
| Segments.Segment.Decrement | src/generator/generator.py:82-83 | the counter goes down by one and nothing else changes |
| Segments.Segment.Increment | src/generator/generator.py:85-86 | the counter goes up by one, undoing `Decrement`; a timer segment also drops exactly the last target, and raises when it never started (see also lines 182-185) |
| Segments.Segment.JumpScale | src/generator/generator.py:99-103 | the base draws a scale in [0.8, 1.1] one time in five and in [0.4, 0.9] otherwise; MoeEye [0.3, 0.4]; LavaBubble and Pokio [0.8, 1] (see also lines 223-224, 258-259, 300-301) |
| Segments.Segment.YRotation | src/generator/generator.py:105-106 | a uniform turn, or none for Pokio without a draw (see also lines 303-304) |
| Segments.Segment.EntryPos | src/generator/generator.py:108-109 | a standable landing point with the normal (0,1,0); on its own objects Pokio lands on the lowest of twenty points facing +z with a zero normal (see also lines 306-311) |
| Segments.Segment.ExitPos | src/generator/generator.py:111-112 | a standable take-off point; on its own objects Pokio leaves from the highest of twenty points facing +z (see also lines 313-318) |
| Segments.Segment.CreateTimed | src/generator/generator.py:187-198 | the inner segment's platforms, each a link destination commented `TimerSegment` and appended to the timer's targets, including candidates later rejected; a timer that never started raises |
| Segments.Segment.CreateObject | src/generator/generator.py:143-162 | the platforms for a landing position, the first being `name` at `pos` unless a closing platform (see also lines 187-198, 226-230, 261-279, 327-340) |
| Segments.Segment.StartTimer | src/generator/generator.py:200-205 | a trample switch timer of 1800 frames 200 below the start, whose targets are a fresh empty list |
| Segments.Segment.InitialObjects | src/generator/generator.py:165-166 | the timer first for a timer segment, nothing for the default kind, and the kind's start objects otherwise; the counter is untouched (see also lines 200-210, 232-243, 281-287, 342-347) |
| Generation.CommittedWellFormed | src/generator/generator.py:419-421 | appending a group and a jump keeps the history well formed: the start is kept and every boundary stays within its list |
| Generation.ExtendedWellFormed | src/generator/generator.py:384-391 | appending non-empty initial groups keeps the history well formed |
| Generation.CheckpointedWellFormed | src/generator/generator.py:412-413 | a boundary recorded at the current lengths keeps the history well formed |
| Generation.RevertedWellFormed | src/generator/generator.py:514-524 | with no boundary the revert raises (the first zone's `[-1]`); otherwise it keeps the history well formed and the starting platform; a step back removes one group and keeps the boundaries, a zone revert cuts back to the last boundary and pops it |
| Generation.RevertUndoesCommit | src/generator/generator.py:514-518 | inside a zone, the step back drops exactly the last group and jump committed |
| Generation.RevertUndoesZoneStart | src/generator/generator.py:411-414 | when a zone's first jump fails, the zone revert restores the history as it was before the zone started (see also lines 519-524) |
| Generation.History.constructor | src/generator/generator.py:363-364 | `objs` is the starting platform alone, `jumps` and both boundary lists are empty (see also lines 398-399) |
| Generation.History.Commit | src/generator/generator.py:419-420 | the group and the jump are appended |
| Generation.History.AddGroup | src/generator/generator.py:389-390 | one group is appended |
| Generation.History.Checkpoint | src/generator/generator.py:412-413 | the boundary lists record `len(objs)` and `len(jumps)` |
| Generation.History.Revert | src/generator/generator.py:514-524 | the lists are cut in place exactly as the revert says, or left alone when it raises |
| Generation.PlacementLands | src/generator/generator.py:493 | `new_obj_pos + landing + entry_normal*181 == jump_start_pos + jump_offset` |
| Generation.CulledBounds | src/generator/generator.py:495 | a platform 35000 or more away is always dropped, one at the start never, and a draw that drops a platform drops every farther one |
| Generation.DrawJump | src/generator/generator.py:479-490 | the final platform on the last try, a trajectory starting at the origin, and an offset that is its turned end point |
| Generation.Surfaces | src/generator/generator.py:491-492 | the take-off and landing lookups keep the environment valid |
| Generation.PlanJump | src/generator/generator.py:479-492 | the plan starts from the last group's first object and its jump starts at the origin |
| Generation.TryJump | src/generator/generator.py:479-513 | a found try returns the platforms it built and a jump from the last platform to the new one that passes no earlier platform and is passed by no earlier jump; when placed as asked, the landing point pushed out along the normal is at the jump's end and the platform is under 35000 from the start; a timer segment's targets gain what the try built |
| Generation.FindNewJump | src/generator/generator.py:472-526 | a found jump changes no list; after 100 failures the history is reverted and a step back gives the segment one platform back; a timer's targets gain everything any try built, found platforms last, and a step back drops the last |
| Generation.GiveUp | src/generator/generator.py:514-526 | the revert applied to the history and the counter; a timer's step back also drops its last target |
| Generation.CollidingGroupsSnoc | src/generator/generator.py:388-391 | one more initial object adds its own group exactly when its collision loads |
| Generation.CollidingGroupsSpec | src/generator/generator.py:385-391 | the run fails exactly when a load fails; otherwise the groups are exactly the single objects whose collision loads |
| Generation.CollidingGroupsErr | src/generator/generator.py:385-391 | a failing load fails the whole list |
| Generation.PlaceInitialObjects | src/generator/generator.py:385 | the segment's initial objects placed at the last platform's take-off point, the counter untouched |
| Generation.AddColliding | src/generator/generator.py:388-391 | the history grows by exactly the colliding groups, in order |
| Generation.AddInitialObjects | src/generator/generator.py:384-393 | `add_initial_objects`: the two halves together, keeping the history well formed |
| Generation.StartPlatformName | src/generator/generator.py:362 | `CapWorldHomeGround001`, or the wobbling platform in LavaWorld |
| Generation.TargetCount | src/generator/generator.py:366 | 55 platform groups, 45 in SkyWorld |
| Generation.CreatorsSpec | src/generator/generator.py:368-382 | the default creator always, first; the timer except in WaterfallWorld and SeaWorld; MoeEye in SandWorld, LavaBubble in LavaWorld, Pokio in SkyWorld; each once |
| Generation.ZoneNamesDiffer | src/generator/generator.py:397 | a zone name determines its segment's kind and index (see also line 411) |
| Generation.ClassNameTails | src/generator/generator.py:397 | a class name followed by any text determines both (see also line 411) |
| Generation.NewSegment | src/generator/generator.py:369-382 | a creator's segment of that kind, with the kingdom's objects and its counter in range |
| Generation.NextSegment | src/generator/generator.py:404-410 | with one creator, that kind again; with several, a kind that differs from the one just done |
| Generation.ZonesNamedSnoc | src/generator/generator.py:409-411 | a zone for a drawn kind, different from the last when there are several, extends the named zones |
| Generation.StartZone | src/generator/generator.py:404-414 | the next segment, its zone named after its kind and index, the boundary and its initial objects |
| Generation.Advance | src/generator/generator.py:415-421 | a found jump appends exactly one group and the segment has one platform fewer |
| Generation.Begin | src/generator/generator.py:362-401 | the starting platform 1500 below the player as the only group, the first segment and its zone |
| Generation.GenerateStep | src/generator/generator.py:403-421 | one turn of the loop keeps the history well formed, the start first and the zones named; the returned segment is the current one or a fresh one. The last-object flag is computed after a new zone's initial objects are added, as at line 415, but the contract does not state the flag |
| Generation.Generate | src/generator/generator.py:361-421 | the result keeps the starting platform first, is well formed, reaches the target count and names one zone per segment, no two in a row of the same kind when several exist |
| Stage.AllLinkKindsComplete | src/stage/object.py:411-429 | every link kind is among the 17 `LinkSet` properties |
| Stage.ObjList.Append | src/stage/object.py:133 | `list.append` adds the object at the end |
| Stage.ObjList.DropLast | src/generator/generator.py:185 | `l[:] = l[:-1]` drops the last entry in place, and does nothing to an empty list |
| Stage.LinkSet.constructor | src/stage/object.py:411-446 | every kind not passed takes the shared default list object, every passed kind its argument |
| Stage.LinkSet.Assign | src/generator/generator.py:205 | rebinding one attribute leaves every other kind's list alone |
| Stage.Defaults.constructor | src/stage/object.py:200-204 | the module-level defaults: the `components` default is empty, `VIEW_GROUP_OBJ` is a `GroupView` that takes an id, and the view-group default holds it while every other default is empty (see also lines 411-429) |
| Stage.Object.constructor | src/stage/object.py:32-86 | the object takes the next `objxx` id, so its id is new, keeps a copy of the position, and stores its flag, components and link set |
| Stage.Object.Pos | src/stage/object.py:117-118 | `pos()` is the stored position plus (0, 182, 0) |
| Stage.Object.Translate | src/stage/object.py:60 | the serialised translate is the stored position plus (0, 582, 0) (see also lines 69-71) |
| Stage.Object.TranslateAbovePos | src/stage/object.py:60 | the translate is `pos()` plus (0, 400, 0) (see also lines 117-118) |
| Stage.Object.GetLinkset | src/stage/object.py:91-94 | a link set with every default is created on the first call only; later calls return the same object |
| Stage.Object.SetIsLinkDest | src/stage/object.py:102-103 | sets the flag and nothing else |
| Stage.Object.SetComment | src/stage/object.py:99-100 | sets the display name and nothing else |
| Stage.ArchiveCollisionModels | src/stage/object.py:475-492 | a successful load has collision data exactly when the listing holds a `.kcl` file, and its models are the files' models in listing order |
| Stage.ArchiveErrStays | src/stage/object.py:483-491 | a failing parse fails the whole load |
| Stage.LoadArchive | src/stage/object.py:482-492 | the listing loop gives `ArchiveCollision` |
| Stage.CollisionCache.constructor | src/stage/object.py:462 | the cache starts empty |
| Stage.CollisionCache.Get | src/stage/object.py:464-496 | a cached name returns the stored value (None included) and changes nothing; without arguments a miss returns None and caches nothing; any other successful miss caches its result; every outcome is the load of the name |
| Stage.TestCollision | src/stage/object.py:138-140 | `test_collision(c, r)` is the collision's `intersects(c - pos(), r)`; without collision data it raises AttributeError |
| Stage.CreateFixMapParts | src/stage/object.py:507-511 | a `FixMapParts` object with the name at the position, unit scale and zero rotation, not a link destination, with no comment and without a link set, sharing the default components list |
| Stage.CreateRotatedFixMapParts | src/stage/object.py:507-511 | a `FixMapParts` object with the name at the position, with the given rotation and unit scale, not a link destination, with no comment and without a link set, sharing the default components list |
| Stage.CreateKeyMoveParts | src/stage/object.py:519-530 | an object at key1's position whose `key_move_next` holds exactly one link-destination object at key2's, every other kind default |
| Stage.CreateMoveNext | src/stage/object.py:533-544 | an object with the name and parameter configuration at key1's position, unit scale, zero rotation and no comment, whose only component is key1's `MoveNext`; its fresh link set's `move_next` list holds exactly one link-destination object with the same name and configuration at key2's position, whose only component is key2's `MoveNext`; every other link kind stays the default list |
| Stage.CreateRail | src/stage/object.py:547-553 | one `Point` per position, in order, inside a link-destination `Rail` at the first position; no positions raises IndexError |
| Stage.CreateTrampleSwitchTimer | src/stage/object.py:592-593 | a `TrampleSwitchTimer` with one timer component |
| Ids.IdCounter.constructor | src/stage/object.py:25 | the counter starts at 1 and nothing has been issued |
| Ids.IdCounter.NextId | src/stage/object.py:26-30 | the id is the prefix and the counter in decimal, the counter grows by one, and the id was never issued before |
| Ids.IdCounter.IssuedDistinct | src/stage/serializer/context.py:12-19 | all issued ids are pairwise distinct |
| Yaml.Keys | src/stage/serializer/context.py:31 | the snapshot of the keys lists each entry's key in order |
| Yaml.LookupKeys | src/stage/serializer/context.py:33 | a key is present exactly when it is among the keys |
| Yaml.PutLookup | src/stage/serializer/context.py:42 | after `d[k] = v` the key maps to `v` and every other key to what it did |
| Yaml.PutKeys | src/stage/serializer/context.py:42 | `d[k] = v` keeps the key order and adds a new key last |
| Yaml.PutDistinct | src/stage/serializer/context.py:42 | `d[k] = v` leaves each key once |
| Yaml.PopLookup | src/stage/serializer/context.py:42 | after `d.pop(k)` the key is gone and every other key maps to what it did |
| Yaml.PopDistinct | src/stage/serializer/context.py:42 | `d.pop(k)` leaves each key once |
| Yaml.MergedLookup | src/stage/serializer/context.py:36 | in `{**a, **b}` the keys of `b` win |
| Yaml.MergedDistinct | src/stage/serializer/context.py:36 | `{**a, **b}` has each key once |
| Yaml.MergedKeepsOrder | src/stage/serializer/context.py:36 | `{**a, **b}` keeps the keys of `a` first and in their order |
| Serializer.CamelWords | src/stage/serializer/context.py:37-41 | each piece of the key is converted in place and none is added or dropped |
| Serializer.CamelKeyOfJoin | src/stage/serializer/context.py:37-41 | splitting a key joined with `_` and converting gives the concatenation of the converted pieces |
| Serializer.ListIndex | src/stage/serializer/context.py:36 | indexing a list component yields one of its elements |
| Serializer.CamelList | src/stage/serializer/context.py:28-29 | a list is reformatted element by element and keeps its length |
| Serializer.RewriteKeys | src/stage/serializer/context.py:31-42 | the loop over the snapshot of the keys, merging `components` (and leaving its list with the component fields rewritten in place) and moving each value to its converted key, gives `CamelEntries` |
| Serializer.CamelAllSpec | src/stage/serializer/context.py:30-43 | every key is converted and every value reformatted, and the result fails exactly when some value's reformatting does |
| Serializer.CamelledPlain | src/stage/serializer/context.py:30-43 | for keys that do not collide once converted and no `components`, each key is replaced by its CamelCase form in the original order with its value reformatted |
| Serializer.CamelledWell | src/stage/serializer/context.py:27-45 | reformatting keeps every dictionary's keys distinct at every depth |
| Serializer.MergeFieldLookup | src/stage/serializer/context.py:36 | after the merge the object's own keys keep their values and any other key takes the reformatted component field's value, in the state the second rewrite of `components` leaves that shared value (`Revisited`) |
| Serializer.RevisitedWell | src/stage/serializer/context.py:36-42 | a shared value left by the second rewrite keeps every dictionary's keys distinct |
| Serializer.RevisitedListSpec | src/stage/serializer/context.py:28-29 | a shared list keeps its elements in place, each in its revisited state |
| Serializer.RevisitedEntriesSpec | src/stage/serializer/context.py:36 | the merged field's keys stay as they are, each value in its revisited state |
| Serializer.RevisitedEntriesWell | src/stage/serializer/context.py:36 | revisiting a well-formed dictionary's values keeps it well formed |
| Serializer.ConvertedFieldsSpec | src/stage/serializer/context.py:35-36 | after the merge each field of a dictionary component is its reformatted value, under its own key |
| Serializer.ConvertedComponentsSpec | src/stage/serializer/context.py:34-36 | after the merge each dictionary component holds its fields rewritten and every other component is unchanged |
| Serializer.ConvertedComponentsWell | src/stage/serializer/context.py:34-36 | the rewritten components stay well formed |
| Serializer.ComponentsKeepOwn | src/stage/serializer/context.py:33-36 | merging all components flat keeps the object well formed and every other key it had keeps its value; its `components` list is left holding the components with their fields rewritten, and a `components` value that is not a list leaves the object unchanged |
| Serializer.Processed | src/stage/serializer/context.py:46-60 | dictionaries stay dictionaries with the same keys and lists stay lists of the same length |
| Serializer.ProcessedEntries | src/stage/serializer/context.py:53-56 | the keys of a dictionary stay as they are |
| Serializer.ProcessObj | src/stage/serializer/context.py:46-60 | replacing each dictionary value in place and rebuilding each list gives `Processed` |
| Serializer.ProcessedEntriesAt | src/stage/serializer/context.py:54-55 | each value is processed under its own key, at its own place |
| Serializer.ProcessedListAt | src/stage/serializer/context.py:58 | each element is processed at its own place |
| Serializer.ProcessedWrapped | src/stage/serializer/context.py:46-60 | no bare int or float is left at any depth |
| Serializer.ProcessedRoundTrip | src/stage/serializer/context.py:46-60 | removing the BYML wrappers from a processed message value gives the value back, so bools stay bools and no number changes |
| Serializer.WrappedFixed | src/stage/serializer/context.py:59-60 | a value already wrapped is left as it is |
| Serializer.ProcessedIdempotent | src/stage/serializer/context.py:46-60 | processing twice is processing once |
| Serializer.ProcessedWell | src/stage/serializer/context.py:53-56 | processing keeps every dictionary's keys distinct |
| Serializer.ToDictWell | src/stage/serializer/context.py:61-66 | a message dictionary comes out a dictionary, well formed, with every number wrapped |
| Reformat.RunLenSpec | src/main.py:99 | the run before the first capital holds no capital and ends at a capital or at the end of the key |
| Reformat.LowerWords | src/main.py:100 | each word is lowered in place and none is added or dropped |
| Reformat.WordsAreWords | src/main.py:99 | every match of `[A-Z][^A-Z]*` is a capital followed by non-capitals |
| Reformat.WordsSkip | src/main.py:99 | a non-capital before the first capital is not part of any match |
| Reformat.WordsTake | src/main.py:99 | a leading capital starts a match that runs up to the next capital |
| Reformat.RunLenTake | src/main.py:99 | a match starts at a capital and what follows it starts at the next capital |
| Reformat.WordsConcat | src/main.py:99 | the matches together spell the key from its first capital on, so nothing after it is lost |
| Reformat.WordsOfConcat | src/main.py:99 | splitting a concatenation of capitalised words gives back those words |
| Reformat.SnakeWords | src/main.py:98-100 | the snake_case key is its lowered words joined by `_`, and each word is non-empty and starts lower-case |
| Reformat.LowerCamelWords | src/main.py:98-100 | lowering the serializer's capitalised words of snake_case pieces gives back the pieces |
| Reformat.CamelLowerWords | src/main.py:98-100 | capitalising the lowered words of a game key gives back the words |
| Reformat.SnakeOfCamel | src/main.py:98-100 | a snake_case field name converted to CamelCase by the serializer and back by `reformat_key` is unchanged |
| Reformat.CamelOfSnake | src/main.py:98-100 | a CamelCase game key converted by `reformat_key` and back by the serializer is unchanged |
| Reformat.SnakeList | src/main.py:103-104 | a list is reformatted element by element and keeps its length |
| Reformat.RewriteSnakeKeys | src/main.py:106-109 | the loop over the snapshot of the keys, one pop and put per key, gives `SnakeEntries` |
| Reformat.SnakeAllSpec | src/main.py:105-109 | every key is converted and every value reformatted, and the result fails exactly when some value's reformatting does |
| Reformat.SnakedPlain | src/main.py:105-109 | for keys that do not collide once converted, each key is replaced by its snake_case form in the original order with its value reformatted |
| Reformat.SnakedCollision | src/main.py:105-109 | two keys that convert alike leave one entry, holding the later key's value |
| ReformatExamples.LowerCapitalised | src/main.py:100 | lowering a capitalised word lowers only its capital |
| Driver.ObjSetCountMultiplier | src/main.py:26-35 | a value is returned exactly for the three difficulties, and any other value raises |
| Driver.YLevelIncreasePerObject | src/main.py:37-46 | a value is returned exactly for the three difficulties, and any other value raises |
| Driver.DifficultyOrder | src/main.py:26-46 | Easy places the fewest objects and climbs the least per object, Hard places the most, and Hard and Ultra climb the same per object |
| Driver.KingdomNames | src/main.py:157 | the names are the datasets' names, in order |
| Driver.ConfigJobs | src/main.py:161-168 | one job per kingdom |
| Driver.ConfigJobsSnoc | src/main.py:161-168 | each turn of the kingdom loop adds its job after the previous ones |
| Driver.GenerateOnlyUpStage | src/main.py:159-168 | the two loops hand `process_stage` the jobs of every configuration, configuration by configuration and kingdom by kingdom |
| Driver.GenerateOnlyUpStages | src/main.py:151-168 | the program generates exactly the Ultra jobs, one per kingdom |
| Driver.OnlyUltra | src/main.py:152-154 | the only configuration is `OnlyUpUltra` at Ultra |
| Driver.ChainLinks | src/main.py:156-168 | each stage is named from the configuration and its kingdom, links back to the stage before (none for the first) and on to the stage after (the win stage for the last), and all kingdoms of a configuration get the same seed |
| Driver.JobLinks | src/main.py:162-165 | the same links stated for single jobs |
| Driver.StageNamesDistinct | src/main.py:156-157 | distinct kingdoms get distinct stage names |
| Datasets.LineVertex | src/generator/data/jump_dataset.py:52-55 | a line yields a point exactly when it has at least four space-separated tokens and the first is `v`; the point is tokens 1 to 3, and a bad float raises ValueError |
| Datasets.TrajectoryOfAppend | src/generator/data/jump_dataset.py:51-55 | the points keep file order |
| Datasets.TrajectoryOfLine | src/generator/data/jump_dataset.py:51-55 | one line contributes exactly one point when it is a vertex line and none otherwise |
| Datasets.TrajectoryErrStays | src/generator/data/jump_dataset.py:51-55 | a line that fails to parse fails the whole file |
| Datasets.FirstTokenStarts | src/generator/data/jump_dataset.py:52 | a line's first token starts with its first character when that is not the separator |
| Datasets.OtherObjLinesSkipped | src/generator/data/jump_dataset.py:53 | `vn`, `vt` and `f` lines yield nothing |
| Datasets.ParseTrajectory | src/generator/data/jump_dataset.py:47-56 | the loop gives `TrajectoryOf` over the lines of the text |
| Datasets.FromDataDir | src/generator/data/jump_dataset.py:32-44 | the jump loads exactly when the metadata, `mario.obj` and `cappy.obj` load; it is named after the directory's basename and holds what they give |
| Datasets.JumpFolder | src/generator/data/jump_dataset.py:63 | `Mario` when no capture type is given, the capture type otherwise |
| Datasets.JumpsOfNames | src/generator/data/jump_dataset.py:66-70 | one jump per folder, in listing order, each named after its folder |
| Datasets.JumpsOfErrStays | src/generator/data/jump_dataset.py:66-70 | a folder that fails to load fails the whole listing |
| Datasets.GetAllJumps | src/generator/data/jump_dataset.py:62-71 | the loop gives `JumpsOf` over the listing of the folder under `src/generator/data/jumps/` |
| Datasets.KingdomName | src/generator/data/kingdom_dataset.py:14 | the name is found exactly when the file name holds a `-`, and otherwise IndexError is raised |
| Datasets.KingdomNameOf | src/generator/data/kingdom_dataset.py:14 | `{prefix}-{name}.yaml` yields `name` |
| Datasets.NoDotNoSuffix | src/generator/data/kingdom_dataset.py:14 | a name without `.` cannot hold `.yaml` before its end |
| Datasets.KingdomNameWithoutDash | src/generator/data/kingdom_dataset.py:14 | a file name without `-` raises IndexError |
| Datasets.StrLeTotal | src/generator/data/kingdom_dataset.py:11 | Python's string order is total |
| Datasets.StrLeTrans | src/generator/data/kingdom_dataset.py:11 | Python's string order is transitive |
| Datasets.SortedPair | src/generator/data/kingdom_dataset.py:11 | a list sorted neighbour by neighbour is ordered for every pair of positions |
| Datasets.Insert | src/generator/data/kingdom_dataset.py:11 | inserting into a sorted list keeps it sorted and adds exactly the element |
| Datasets.SortStrings | src/generator/data/kingdom_dataset.py:11 | `sorted()` returns a sorted permutation of the listing |
| Datasets.FromYaml | src/generator/data/kingdom_dataset.py:21-27 | the dataset loads exactly when its file does, with the given name and the loaded fields |
| Datasets.YamlFiles | src/generator/data/kingdom_dataset.py:12-13 | only `.yaml` entries are kept |
| Datasets.YamlFilesMembers | src/generator/data/kingdom_dataset.py:12-13 | a file is kept exactly when it is in the listing and ends in `.yaml` |
| Datasets.YamlFilesSorted | src/generator/data/kingdom_dataset.py:11-13 | filtering a sorted listing leaves it sorted |
| Datasets.DatasetsOfNames | src/generator/data/kingdom_dataset.py:11-19 | one dataset per `.yaml` file, in order, named from its file name and loaded from its path |
| Datasets.DatasetsErrStays | src/generator/data/kingdom_dataset.py:11-19 | a failing entry fails the whole listing |
| Datasets.GetAllDatasets | src/generator/data/kingdom_dataset.py:9-19 | the loop gives `DatasetsOf` over the sorted listing |
| Datasets.DatasetsSorted | src/generator/data/kingdom_dataset.py:11-18 | the `.yaml` files taken are sorted by Python's string order and are exactly the listing's entries ending in `.yaml`; there is one dataset per file, in that order, each named from its file name |
| Strings.Split | src/generator/data/jump_dataset.py:52 | `split(' ')` yields at least one part and no part holds the separator |
| Strings.JoinSplit | src/stage/serializer/context.py:41 | joining the parts of a split with the separator gives the text back |
| Strings.SplitJoin | src/stage/serializer/context.py:41 | splitting a join of parts free of the separator gives the parts back |
| Strings.UntilFirst | src/generator/data/kingdom_dataset.py:14 | `split('.yaml')[0]` is the longest prefix before the first occurrence of `.yaml` |
| Strings.PrefixedNamesDistinct | src/stage/object.py:26-30 | names made of a prefix and distinct counters are distinct |
| Strings.Basename | src/generator/data/jump_dataset.py:40 | `os.path.basename` is the end of the path after its last `/` |
| Serializer.CamelKeyExamples | src/stage/serializer/context.py:37-41 | worked example: `change_stage_id` becomes `ChangeStageId` and `no_delete__shine` becomes `NoDelete_Shine` |
| Serializer.ReconvertedKey | src/stage/serializer/context.py:36 | worked example: a field converted for the merge and again inside `components` changes twice: `a__b` becomes `A_B`, then `AB` (see also line 42) |
| ReformatExamples.WordsBar | src/main.py:99 | worked example: `Bar` is one word |
| ReformatExamples.WordsFooBar | src/main.py:99 | worked example: `FooBar` splits into `Foo` and `Bar` |
| ReformatExamples.WordsFooUnderBar | src/main.py:99 | worked example: `Foo_bar` is one word, since `_` is not a capital |
| ReformatExamples.SnakeKeyFooBar | src/main.py:98-100 | worked example: `FooBar` becomes `foo_bar` |
| ReformatExamples.SnakeKeyFooUnderBar | src/main.py:98-100 | worked example: `Foo_bar` becomes `foo_bar` as well |
| ReformatExamples.FooBarCollide | src/main.py:98-100 | worked example: two distinct keys share one snake_case form, which is neither of them |
| Datasets.KingdomNameExample | src/generator/data/kingdom_dataset.py:14 | worked example: `00-CapWorld.yaml` yields `CapWorld` |

The accessors of `JumpData` (src/generator/data/jump_dataset.py:16-29) and
`KingdomDataset` (src/generator/data/kingdom_dataset.py:33-46) are the
fields of the `JumpData` and `KingdomDataset` datatypes, so they return
their constructor arguments by construction. `SegmentBase.is_done` and
`is_last_obj_in_segment` (src/generator/generator.py:88-92) are the
predicates `Segments.Segment.IsDone` and `Segments.Segment.IsLastObj`.

## Left out

- CGAL (src/file_format/kcl.py:7-8, 100, 110-111) is a foreign library. Each model carries its squared-distance function as an oracle of non-negative reals.
- IEEE floating point, `math.sqrt`, `cos` and `sin` are left out. Reals stand in for floats, a rotation only satisfies c² + s² = 1, and `Vec.length` is an oracle whose square is the squared length.
- Python's random distributions, the Mersenne Twister and seeding are left out. Every draw consumes the next value of an oracle stream in [0, 1).
- The per-process `hash(args.seed)` at src/main.py:165 is a parameter (`hashSeed`).
- `Driver.GenerateOnlyUpStage`: the configuration list is a parameter. `Driver.GenerateOnlyUpStages` applies it to the program's one configuration.
- `process_stage` and its helpers (src/main.py:114-149) are file and archive I/O. Each stage's job is what the driver hands them.
- `DataCache.clear` is left out, as are argparse (src/main.py:171-198) and every `print`.
- File and binary I/O are left out, except the KCL layout, which is read from a byte sequence. This covers the `open`, listdir and YAML or protobuf loading of the dataset files, which become oracles.
- Archive extraction and rewriting are left out: src/stage/object.py:143-199, `package_map_szs` and `SZSOutputTempDir`. So is src/sarc_tool/__init__.py, which is a vendored archive tool.
- src/file_format/bfres.py and the protobuf-filling modules are not part of this model: src/stage/scenario.py, area.py, player_start_info.py and scenario_start_camera.py.
- Scene assembly after the generation loop (src/generator/generator.py:422-470) is left out. This covers zones, scenario entries and the debug `.obj` export. The warp-area grid (529-599) is left out too; both only emit to the scene layer.
- Character case is ASCII only. `str.upper`, `str.lower` and the `[A-Z]` class are modelled for ASCII letters, and other characters pass through unchanged.
- `Reformat.Snaked` and `Serializer.Camelled` take a nesting bound `depth`. A document nested deeper than the bound fails with `OutOfFuel`, which Python does not do.
- `Reformat.SnakedCollision`: the overwrite on colliding keys is stated for a dictionary of two scalar entries, not for every dictionary.
- `Serializer.RewriteKeys`, `Serializer.MergeFieldLookup`, `Serializer.ComponentsKeepOwn`: the component merge is modelled on values, with the in-place rewrite of each component field and its sharing with the merged object written out. Two sharing effects are not captured. First, a component field that itself holds a non-empty `components` list is left half rewritten by the program, while the model writes back its fully reformatted form. Second, an object that an inner merge makes reachable along two paths is rewritten by the program on every visit, while the model rewrites each copy once. The results differ only when a second conversion changes a key again, as an escaped underscore does.
- `Serializer.ProcessObj` works on values. The in-place update of the dictionary that `__process_obj` shares with its caller is not observable in the model, and byml nodes are left unchanged as other values.
- `Generation.Generate` and `Generation.NextSegment` take a `fuel` bound. It caps the `while len(objs) < target` loop and the re-draw loop of the segment-switching rule, both unbounded in the program. Running out of fuel fails with `OutOfFuel`.
- `Generation.Surfaces` only promises that the environment stays valid. The surfaces themselves come from the random standable-position search, whose guarantee is stated on `Kcl.GetRandomStandablePos`.
- The aliasing of the shared default lists is modelled only as far as the Timer segment relies on it (`Stage.Defaults`, `Stage.LinkSet`). The components list that every factory object shares is the one `Defaults` object.
- `get_collision`'s `__OBJECTS_UPDATED` set only feeds the archive rewrite, which is left out.

## Findings

| source | as written | input that shows it | evidently intended | confidence | as-written member | corrected member |
|---|---|---|---|---|---|---|
| src/math/aabb.py:43-46 | `intersects` returns `dmin <= sphere_radius`, where `dmin` is the squared distance from the center to the box | the box from (0,0,0) to (1,1,1) and a sphere at (3,0,0) with radius 3: the box is 2 away, but `dmin` is 4 and 4 > 3, so the overlap is rejected | compare `dmin` with `sphere_radius * sphere_radius` | not executed | Aabb.AsWrittenMissesOverlap | Aabb.SphereIntersects |
