# SlimDX tutorial demos: the integer bookkeeping, verified

Five Direct3D 11 demos written against SlimDX: BoxDemo, Pyramid, PointList, RippleGrid
and RollingSphere. Each owns a window and a device. Each builds a vertex buffer, and all
but PointList also build an index buffer. In every effect pass each issues its draw calls:
one for the three table demos and RippleGrid, five `DrawIndexed` calls for RollingSphere.
Each releases its GPU resources in a `Dispose` override.
Most of their code hands floats and matrices to Direct3D. Around those calls there is a
thin layer of integer bookkeeping, and this project models it and proves its properties:

- **Hand-written tables** (BoxDemo, Pyramid, PointList). The constant vertex and index
  tables are checked against the counts the draw calls use. We prove the index bounds, that
  the triangles are whole and non-degenerate, and which corners each face or side uses.
  The byte widths of the buffers are modelled too.
- **Colour banding** (RippleGrid). The loop that lifts every grid vertex to a height field
  and colours it by a five-way threshold chain on y is modelled. So are the two buffers
  it fills and the `gridIndexCount` that the draw uses.
- **Buffer packing** (RollingSphere). Five meshes are concatenated into one vertex list
  and one index list: a floor grid, a sphere, a cylinder, a gold triangle and a second
  grid whose indices are reversed in place. Each mesh is drawn with
  `DrawIndexed(count, start, base)`. The model proves three things:
  - the offsets are running sums;
  - the five index ranges tile the packed index list;
  - each draw fetches exactly its own mesh's vertices.
- **Bounce** (RollingSphere). The integer part of the sphere's bounce (`gravity`, `yOffset`
  and the `step` counter) is a two-state flip machine. The float conditions that choose a
  branch are abstracted to a parameter.
- **Dispose-once** (all five). A `disposed` flag guards the release of the owned resources,
  and `base.Dispose` runs on every call. The guard comes in two shapes. BoxDemo sets the
  flag on the first call whatever `disposing` is. The other four set it only on a call with
  `disposing` true.

Modules:

| module | file | contents |
|---|---|---|
| `Common` | common.dfy | colours, positions, `VertexPC`, meshes, draw calls, buffer descriptions, `Reversed` |
| `Packing` | packing.dfy | sections, their concatenation, prefix-sum offsets, the per-section draw calls |
| `Lifecycle` | lifecycle.dfy | the dispose-once state machine: a pure `Step`/`Run` and the class `Disposable` |
| `Tables` | tables.dfy | validators for constant index tables |
| `BoxDemo`, `Pyramid`, `PointList`, `RippleGrid`, `RollingSphere` | one file each | the demos |

Positions computed at run time (the geometry generator's output, RippleGrid's heights) and
the bounce's `step` counter are floats modelled as `real`. The hand-written tables'
coordinates are float literals with integral values, such as `new Vector3(-1f, -1f, -1f)`,
and are modelled as `int` (`Point3`). Integers are unbounded `int`, and the byte size of a vertex
(`VertexPC.Stride`) as a parameter `stride`. Dispose is modelled by the order of its
observable actions: a single event log records each `Util.ReleaseCom` call and each
`base.Dispose` call. A generated mesh is its positions plus its index
list. The generator's promise that every index names one of the mesh's own vertices is
the predicate `Mesh.Valid`, required where a proof needs it.

## Model

| member | source | states |
|---|---|---|
| `Common.ReversedIsPermutation` | RollingSphere/Program.cs:382 | reversing the second grid's index list keeps every index with its multiplicity |
| `Packing.ConcatAt` | RollingSphere/Program.cs:342-383 | entry i of list k ends up at the summed length of the lists before k, plus i, in the concatenation |
| `Packing.DrawsTile` | RollingSphere/Program.cs:321-337 | the per-section draws are adjacent: the first starts at 0, each starts where the previous ends, the last ends at the packed list's end; the base vertices are adjacent in the same way |
| `Packing.DrawRangesPartition` | RollingSphere/Program.cs:137-159 | every position of the packed index list is read by exactly one section's draw |
| `Packing.SectionEntry` | RollingSphere/Program.cs:137-159 | index j of a valid section, read through the packed lists at its draw's start index and base vertex, is the section's own index j and names the section's own vertex |
| `Packing.DrawFetchesSection` | RollingSphere/Program.cs:137-159 | for a valid section, its draw stays in bounds and fetches exactly the vertices its own indices name in its own vertex list |
| `Lifecycle.FirstTrue` | RollingSphere/Program.cs:264-267 | the position of the first call with `disposing` true: that call has it, and no earlier call does |
| `Lifecycle.RunOutcome` | BoxDemo/Program.cs:63-77 | under either guard and for any run of calls, the event log is exactly the call-by-call log `ExpectedLog` writes out, and the flag is set as `SetsFlag` says |
| `Lifecycle.RunWhenDisposing` | RollingSphere/Program.cs:262-278 | with the guard that sets the flag only when disposing: a bare `base.Dispose` for each call before the first with `disposing` true, then that call's releases followed by its `base.Dispose`, then a bare `base.Dispose` for each later call; the flag is set iff some call had `disposing` true |
| `Lifecycle.RunAlways` | BoxDemo/Program.cs:63-77 | with the guard that always sets the flag: the releases come first, before the first call's `base.Dispose`, and only when that call had `disposing` true; then one `base.Dispose` per call; the flag is set iff there was a call |
| `Lifecycle.ReleasedAppend` | RollingSphere/Program.cs:262-278 | the resources released by two logs one after the other are the first's then the second's, and their `base.Dispose` counts add up |
| `Lifecycle.ReleaseBlockContents` | RollingSphere/Program.cs:268-273 | the release block hands over exactly the owned resources, in order, and calls no `base.Dispose` |
| `Lifecycle.BaseBlockContents` | RollingSphere/Program.cs:277 | n bare `base.Dispose` calls release nothing and count n |
| `Lifecycle.ThreeBlocks` | RollingSphere/Program.cs:262-278 | bare `base.Dispose` calls, the release block, and more bare calls release exactly the owned resources and count all the bare calls |
| `Lifecycle.ExpectedReleases` | RollingSphere/Program.cs:262-278 | the call-by-call log releases the owned resources once, in order, or nothing, as `Releases` says, and has one `base.Dispose` per call |
| `Lifecycle.RunReleases` | RollingSphere/Program.cs:262-278 | any run of calls releases the owned resources once, in order, or nothing, as `Releases` says, and runs `base.Dispose` once per call |
| `Lifecycle.OutcomeWhenDisposing` | RollingSphere/Program.cs:262-278 | with the guard that sets the flag only when disposing: the ordered event log written out, the flag iff some call had `disposing` true, and the released resources |
| `Lifecycle.OutcomeAlways` | BoxDemo/Program.cs:63-77 | with the guard that always sets the flag: the ordered event log written out, the flag iff there was a call, and the released resources |
| `Lifecycle.StepConsistent` | RollingSphere/Program.cs:262-278 | one call keeps "nothing released, or everything released once with the flag set"; it releases nothing new, or all the owned resources on a demo that had released nothing |
| `Lifecycle.ReleasedAtMostOnce` | RollingSphere/Program.cs:262-278 | each resource is released at most once, exactly once iff it is owned and the run releases, and nothing else is ever released |
| `Lifecycle.Disposable.constructor` | RollingSphere/Program.cs:72 | a new demo is not disposed and has released nothing |
| `Lifecycle.Disposable.Dispose` | RollingSphere/Program.cs:262-278 | one call takes the state through `Step` for the demo's guard (the guarded release block, then `base.Dispose`), keeps every release count at most 1, and either releases nothing or releases all the owned resources on a demo that had released nothing |
| `Common.IndicesBelow` | BoxDemo/Program.cs:196-216 | true iff every index of the table lies in [0, n) |
| `Tables.ProperTriangles` | BoxDemo/Program.cs:198-215 | true iff the table splits into whole triangles, none of which repeats a vertex |
| `BoxDemo.TableSizes` | BoxDemo/Program.cs:175-216 | 8 vertices and 36 indices, every index in [0, 8) |
| `BoxDemo.SceneDrawCoversTable` | BoxDemo/Program.cs:123-134 | `DrawIndexed(36, 0, 0)` reads the whole index table from its start, with no base offset, and every vertex it fetches exists; under the triangle-list topology it assembles 12 triangles |
| `BoxDemo.GeometryBuffers` | BoxDemo/Program.cs:187-225 | the vertex buffer holds the 8-vertex table at stride bytes each; the index buffer holds the 36-index table at 4 bytes each; the scene's draw stays inside both |
| `BoxDemo.TwelveProperTriangles` | BoxDemo/Program.cs:198-215 | 12 triangles, each with three distinct corners |
| `BoxDemo.CornersOfCube` | BoxDemo/Program.cs:177-184 | every coordinate is -1 or 1, and no two corners coincide |
| `BoxDemo.TableIsSixFaces` | BoxDemo/Program.cs:198-215 | the table is the six commented faces in order, six indices each |
| `BoxDemo.FrontFaceIsSquare` | BoxDemo/Program.cs:198-200 | the front face uses exactly 4 vertices, and they are exactly the corners with z = -1 |
| `BoxDemo.BackFaceIsSquare` | BoxDemo/Program.cs:201-203 | the back face uses exactly the 4 corners with z = 1 |
| `BoxDemo.LeftFaceIsSquare` | BoxDemo/Program.cs:204-206 | the left face uses exactly the 4 corners with x = -1 |
| `BoxDemo.RightFaceIsSquare` | BoxDemo/Program.cs:207-209 | the right face uses exactly the 4 corners with x = 1 |
| `BoxDemo.TopFaceIsSquare` | BoxDemo/Program.cs:210-212 | the top face uses exactly the 4 corners with y = 1 |
| `BoxDemo.BottomFaceIsSquare` | BoxDemo/Program.cs:213-215 | the bottom face uses exactly the 4 corners with y = -1 |
| `BoxDemo.DisposeOutcome` | BoxDemo/Program.cs:63-77 | for any run of calls: every call ends with `base.Dispose`; the first call sets the flag, and releases the four resources, once each and in source order, before its own `base.Dispose` exactly when it had `disposing` true; no other call releases anything; no resource is listed twice |
| `Pyramid.TableSizes` | Pyramid/Program.cs:168-215 | 5 vertices and 18 indices, every index in [0, 5); the commented-out edge list is not part of the table |
| `Pyramid.SceneDrawCoversTable` | Pyramid/Program.cs:116-127 | `DrawIndexed(18, 0, 0)` reads the whole index table from its start, with no base offset, and every vertex it fetches exists; under the triangle-list topology it assembles 6 triangles |
| `Pyramid.GeometryBuffers` | Pyramid/Program.cs:177-225 | the vertex buffer holds the 5-vertex table at stride bytes each; the index buffer holds the 18-index table at 4 bytes each; the scene's draw stays inside both |
| `Pyramid.SixProperTriangles` | Pyramid/Program.cs:189-203 | 6 triangles, each with three distinct corners |
| `Pyramid.TableIsSixTriangles` | Pyramid/Program.cs:187-215 | the table is the front, back, left, right and two bottom triangles in order |
| `Pyramid.SidesMeetAtApex` | Pyramid/Program.cs:189-199 | each side triangle has the apex 4 exactly once, and its two base corners share an x or a z, so they form a base edge and not a diagonal |
| `Pyramid.BottomCoversBase` | Pyramid/Program.cs:201-203 | the two bottom triangles use only corners 0 to 3, and between them all four |
| `Pyramid.BaseBelowApex` | Pyramid/Program.cs:170-174 | the base corners have y = -2 and the apex has y = 2 |
| `Pyramid.DisposeOutcome` | Pyramid/Program.cs:60-74 | for any run of calls: every call ends with `base.Dispose`; the first call with `disposing` true sets the flag and releases the four resources, once each and in source order, before its own `base.Dispose`; no other call releases anything; no resource is listed twice |
| `PointList.GeometryBuffers` | PointList/Program.cs:125-148 | exactly one buffer is built, a vertex buffer, so there is no index buffer; it holds the 8-point table, it is stride bytes for each of the vertices `Draw(8, 0)` reads, and that draw stays inside it and fetches its whole contents in order |
| `PointList.SceneDrawCoversTable` | PointList/Program.cs:63-74 | the table has 8 vertices, and `Draw(8, 0)` stays in bounds and fetches all of them, in order, from the first; under the point-list topology that is one point per vertex |
| `PointList.PointsOnPlane` | PointList/Program.cs:129-136 | every point has z = 0 and x, y in [-2, 2] |
| `PointList.DisposeOutcome` | PointList/Program.cs:110-123 | for any run of calls: every call ends with `base.Dispose`; the first call with `disposing` true sets the flag and releases the three resources, once each and in source order, before its own `base.Dispose`; no other call releases anything; no resource is listed twice |
| `RippleGrid.Band` | RippleGrid/Program.cs:183-202 | the colour is Red iff y < -0.6, OrangeRed iff -0.6 <= y < -0.2, Orange iff -0.2 <= y < 0.2, Yellow iff 0.2 <= y < 0.4, LightGoldenrodYellow iff y >= 0.4 |
| `RippleGrid.BandMonotone` | RippleGrid/Program.cs:183-202 | a higher vertex never gets a band earlier in the chain, and every height gets one of the five bands |
| `RippleGrid.RemapVertices` | RippleGrid/Program.cs:177-204 | the output has the grid's length and order; each vertex keeps x and z, takes the height field's value as y, and has that y's band colour |
| `RippleGrid.DisposeOutcome` | RippleGrid/Program.cs:123-137 | for any run of calls: every call ends with `base.Dispose`; the first call with `disposing` true sets the flag and releases the four resources, once each and in source order, before its own `base.Dispose`; no other call releases anything; no resource is listed twice |
| `RippleGrid.RippleGridApp.constructor` | RippleGrid/Program.cs:42-49 | no buffers, and `gridIndexCount` is 0 |
| `RippleGrid.RippleGridApp.BuildGeometryBuffers` | RippleGrid/Program.cs:173-226 | the vertex buffer holds the remapped grid at stride bytes per vertex; the index buffer holds the grid's indices unchanged at 4 bytes each; `gridIndexCount` is their number, so the draw reads the whole list from 0 with base 0, in bounds when the grid is valid |
| `RollingSphere.AppendColored` | RollingSphere/Program.cs:343-354 | one foreach loop appends every position of a mesh, in order, with the given colour |
| `RollingSphere.ReverseGridIndices` | RollingSphere/Program.cs:382 | the array afterwards is its old contents back to front |
| `RollingSphere.PackVertices` | RollingSphere/Program.cs:342-363 | the vertex list is grid (green), sphere (red), cylinder (black), the three gold vertices, second grid (forest green) |
| `RollingSphere.PackIndices` | RollingSphere/Program.cs:375-383 | the index list is the grid's, the sphere's and the cylinder's indices, then 0, 2, 1, then the second grid's indices reversed |
| `RollingSphere.PackedLayout` | RollingSphere/Program.cs:321-340 | the packed lists are the concatenation of the five sections, with totalVertexCount and totalIndexCount entries, and the five draw calls are the per-section draws, so every offset is the running sum of the sizes before it |
| `RollingSphere.PackedVertexAt` | RollingSphere/Program.cs:342-363 | the entry at a section's base vertex plus i is that section's vertex i |
| `RollingSphere.PackedIndexAt` | RollingSphere/Program.cs:375-383 | the entry at a section's start index plus i is that section's index i; for the second grid it is original entry n - 1 - i |
| `RollingSphere.DrawsRenderOwnMesh` | RollingSphere/Program.cs:137-159 | with valid meshes, each of the five draws stays in bounds and fetches exactly its own mesh's vertices in its own index order: the triangle as vertices 0, 2, 1, the second grid back to front |
| `RollingSphere.DrawRangesCoverIndices` | RollingSphere/Program.cs:137-159 | the five index ranges are adjacent and in order, and every position below totalIndexCount is read by exactly one of them |
| `RollingSphere.ReversedGridSameIndices` | RollingSphere/Program.cs:382-383 | the reversed second-grid list has the same length and the same indices with the same multiplicities |
| `RollingSphere.BounceStep` | RollingSphere/Program.cs:211-247 | one frame keeps gravity -1 with yOffset 1 or gravity 1 with yOffset 0; a turn negates gravity, resets step to 0 and sets yOffset to 1 exactly when gravity becomes -1; a fall only increases step; past z = 55 nothing changes |
| `RollingSphere.BounceInvariant` | RollingSphere/Program.cs:104-106 | from the constructor's values and over any run of frames, the state stays consistent, gravity is -1 exactly after an even number of turns, and step is never negative |
| `RollingSphere.DisposeOutcome` | RollingSphere/Program.cs:262-278 | for any run of calls: every call ends with `base.Dispose`; the first call with `disposing` true sets the flag and releases the six resources, once each and in source order, before its own `base.Dispose`; no other call releases anything; no resource is listed twice |
| `RollingSphere.RollingSphereApp.constructor` | RollingSphere/Program.cs:92-106 | all offsets and counts are 0, there are no buffers, and gravity, step and yOffset are -1, 0 and 1 |
| `RollingSphere.RollingSphereApp.SetVertexOffsets` | RollingSphere/Program.cs:321-325 | base vertices 0, grid, grid + sphere, grid + sphere + cylinder, and that plus 3 |
| `RollingSphere.RollingSphereApp.SetIndexCounts` | RollingSphere/Program.cs:327-331 | each count is its mesh's index count; the triangle's is 3 |
| `RollingSphere.RollingSphereApp.SetIndexOffsets` | RollingSphere/Program.cs:333-337 | start indices are the running sums of the counts |
| `RollingSphere.RollingSphereApp.SetLayout` | RollingSphere/Program.cs:321-337 | the three bookkeeping blocks together leave the five draw calls equal to `SceneDraws`: counts, start indices and base vertices as running sums |
| `RollingSphere.RollingSphereApp.BuildGeometryBuffers` | RollingSphere/Program.cs:314-394 | the five draw calls become `SceneDraws`; the vertex buffer holds the packed vertex list at stride times totalVertexCount bytes; the index buffer holds the packed index list at 4 times totalIndexCount bytes; the bounce state is unchanged |
| `RollingSphere.RollingSphereApp.UpdateScene` | RollingSphere/Program.cs:211-247 | the bounce state moves by `BounceStep` for the frame's branch; the draw calls and buffers are unchanged |

## Left out

- The engine code is not part of this model: `GeometryGenerator`, `D3DApp`,
  `Util.ReleaseCom`, `VertexPC` and the `Core` library. Generated meshes are inputs, and
  mesh validity is a precondition where it is needed. `VertexPC.Stride` is a parameter.
- Direct3D and SlimDX calls are modelled only through the integer arguments the demos
  pass: buffer, effect and input-layout creation, clears, draw execution and `Present`.
  This also drops the input-layout set-up and the vertex-buffer binding (stride and
  offset 0).
- The effect-pass loop is left out. The draw calls of one pass are modelled, and every
  pass issues the same ones.
- Shader compilation from fixed file paths and texture loading are left out, because
  they are file I/O.
- The camera trigonometry, `Matrix` products, world matrices and projections are left
  out, because they are floating-point numerics.
- Mouse handlers, window capture, `Main`/`Run` and the message loop are left out, because
  they are UI plumbing.
- The float parts of the bounce are left out: `zOffset`, `landing`, the sphere
  translation, and snapping `M42` to 1.9 or 20. The conditions on the sphere's position
  become the `BounceBranch` parameter.
- RippleGrid's `getHeight` is an arbitrary function argument, because it computes a sine.
- Run-time floats are reals, and the integral table coordinates are ints. The float-against-double band comparisons and the `0.02f` increments
  of `step` are exact in the model.
- `RollingSphere.BounceStep`: "a fall increases step" holds for reals. A 32-bit float
  stops growing once it is large enough.
- `RollingSphere.RollingSphereApp.BuildGeometryBuffers`: the 32-bit overflow of the
  offset and byte-width sums is not modelled, because integers are unbounded. The same
  holds for the other byte widths.
- The generated meshes are taken by value, so the in-place reversal of the second grid's
  index list acts on a copy. The change to the caller's `grid1` object is not captured.
  The mesh is local to the source method and is dropped afterwards.
- Constructor fields with no integer bookkeeping are left out: matrices, camera,
  materials and clear colours.
- The argument of `base.Dispose` is not recorded: the `BaseDispose` event drops the
  `disposing` flag that every demo passes on. So the model orders releases before `base.Dispose`
  but does not say which of those calls had `disposing` true. `D3DApp.Dispose` is not part
  of this model.
- The demos' own `Dispose` is the shared `Lifecycle.Disposable` class, with each demo's
  guard shape and its ordered list of owned resources.
