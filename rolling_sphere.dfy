/** The rolling-sphere demo: a floor grid, a sphere, a cylinder, a gold triangle and a
    second grid packed into one vertex buffer and one index buffer, each drawn with its own
    DrawIndexed(count, start, base) per effect pass; a sphere that bounces between two
    heights by flipping `gravity`; and a Dispose that sets the flag only when `disposing`
    is true. */
module RollingSphere {
  import opened Common
  import opened Packing
  import Lifecycle

  type Vertex = VertexPC<Vec3>

  /** Every position with the same colour, as a foreach loop over a mesh's vertices adds them. */
  function Colored(positions: seq<Vec3>, color: Color): seq<Vertex> {
    seq(|positions|, i requires 0 <= i < |positions| => VertexPC(positions[i], color))
  }

  /** One foreach loop of BuildGeometryBuffers: append each position with the given colour. */
  method AppendColored(vs: seq<Vertex>, positions: seq<Vec3>, color: Color) returns (r: seq<Vertex>)
    ensures r == vs + Colored(positions, color)
  {
    r := vs;
    for i := 0 to |positions|
      invariant r == vs + Colored(positions[..i], color)
    {
      assert Colored(positions[..i + 1], color) == Colored(positions[..i], color) + [VertexPC(positions[i], color)];
      r := r + [VertexPC(positions[i], color)];
    }
    assert positions[..|positions|] == positions;
  }

  /** grid1.Indices.Reverse() on the second grid's index array: the two ends are swapped
      and move inward until they meet, leaving the array back to front. */
  method ReverseGridIndices(indices: array<int>)
    modifies indices
    ensures indices[..] == Reversed(old(indices[..]))
  {
    ghost var original := indices[..];
    var n := indices.Length;
    var lo, hi := 0, n - 1;
    while lo < hi
      invariant 0 <= lo <= n && hi == n - 1 - lo
      invariant forall j :: (0 <= j < lo || hi < j < n) ==> indices[j] == Reversed(original)[j]
      invariant forall j :: lo <= j <= hi ==> indices[j] == original[j]
      decreases hi - lo
    {
      indices[lo], indices[hi] := indices[hi], indices[lo];
      lo, hi := lo + 1, hi - 1;
    }
    assert forall j :: 0 <= j < n ==> indices[..][j] == Reversed(original)[j];
  }

  /** The gold triangle: three vertices written out in BuildGeometryBuffers, and its local
      indices 0, 2, 1. */
  const TriangleVertices: seq<Vertex> := [
    VertexPC(Vec3(-1.0, 1.0, 0.0), Gold),
    VertexPC(Vec3(1.0, 1.0, 0.0), Gold),
    VertexPC(Vec3(0.0, 2.0, 0.0), Gold)
  ]
  const TriangleIndices: seq<int> := [0, 2, 1]

  /** The five sections in packing order: grid (green), sphere (red), cylinder (black), the
      gold triangle, second grid (forest green) with its index list reversed. */
  function Sections(grid: Mesh, sphere: Mesh, cylinder: Mesh, grid1: Mesh): seq<Section<Vertex>> {
    [ Section(Colored(grid.vertices, Green), grid.indices),
      Section(Colored(sphere.vertices, Red), sphere.indices),
      Section(Colored(cylinder.vertices, Black), cylinder.indices),
      Section(TriangleVertices, TriangleIndices),
      Section(Colored(grid1.vertices, ForestGreen), Reversed(grid1.indices)) ]
  }

  /** The vertex list BuildGeometryBuffers packs: the five vertex lists one after the other. */
  function PackedVertices(grid: Mesh, sphere: Mesh, cylinder: Mesh, grid1: Mesh): seq<Vertex> {
    Colored(grid.vertices, Green) + Colored(sphere.vertices, Red) + Colored(cylinder.vertices, Black)
    + TriangleVertices + Colored(grid1.vertices, ForestGreen)
  }

  /** The index list BuildGeometryBuffers packs: the five index lists one after the other,
      the second grid's reversed. */
  function PackedIndices(grid: Mesh, sphere: Mesh, cylinder: Mesh, grid1: Mesh): seq<int> {
    grid.indices + sphere.indices + cylinder.indices + TriangleIndices + Reversed(grid1.indices)
  }

  /** The five DrawIndexed calls with the offsets and counts as BuildGeometryBuffers
      computes them: each base vertex and start index adds the previous section's size to
      the previous offset, and the triangle has 3 vertices and 3 indices. */
  function SceneDraws(grid: Mesh, sphere: Mesh, cylinder: Mesh, grid1: Mesh): seq<DrawCall> {
    var sphereVertexOffset := |grid.vertices|;
    var cylVertexOffset := sphereVertexOffset + |sphere.vertices|;
    var triangleVertexOffset := cylVertexOffset + |cylinder.vertices|;
    var grid1VertexOffset := triangleVertexOffset + 3;
    var sphereIndexOffset := |grid.indices|;
    var cylIndexOffset := sphereIndexOffset + |sphere.indices|;
    var triangleIndexOffset := cylIndexOffset + |cylinder.indices|;
    var grid1IndexOffset := triangleIndexOffset + 3;
    [ DrawIndexed(|grid.indices|, 0, 0),
      DrawIndexed(|sphere.indices|, sphereIndexOffset, sphereVertexOffset),
      DrawIndexed(|cylinder.indices|, cylIndexOffset, cylVertexOffset),
      DrawIndexed(3, triangleIndexOffset, triangleVertexOffset),
      DrawIndexed(|grid1.indices|, grid1IndexOffset, grid1VertexOffset) ]
  }

  /** The bookkeeping of BuildGeometryBuffers agrees with packing the five sections: its
      vertex and index lists are the packed lists, with totalVertexCount and totalIndexCount
      entries, and its five draw calls are the packing's draws, so its offsets are the
      running sums of the section sizes. */
  lemma PackedLayout(grid: Mesh, sphere: Mesh, cylinder: Mesh, grid1: Mesh)
    ensures Packing.Vertices(Sections(grid, sphere, cylinder, grid1)) == PackedVertices(grid, sphere, cylinder, grid1)
    ensures Packing.Indices(Sections(grid, sphere, cylinder, grid1)) == PackedIndices(grid, sphere, cylinder, grid1)
    ensures |PackedVertices(grid, sphere, cylinder, grid1)| ==
      |grid.vertices| + |sphere.vertices| + |cylinder.vertices| + 3 + |grid1.vertices|
    ensures |PackedIndices(grid, sphere, cylinder, grid1)| ==
      |grid.indices| + |sphere.indices| + |cylinder.indices| + 3 + |grid1.indices|
    ensures Draws(Sections(grid, sphere, cylinder, grid1)) == SceneDraws(grid, sphere, cylinder, grid1)
  {
    var ss := Sections(grid, sphere, cylinder, grid1);
    var g, s, c, g1 := Colored(grid.vertices, Green), Colored(sphere.vertices, Red),
      Colored(cylinder.vertices, Black), Colored(grid1.vertices, ForestGreen);
    var rev := Reversed(grid1.indices);
    assert VertexLists(ss) == [g, s, c, TriangleVertices, g1];
    assert IndexLists(ss) == [grid.indices, sphere.indices, cylinder.indices, TriangleIndices, rev];
    ConcatFive(g, s, c, TriangleVertices, g1);
    ConcatFive(grid.indices, sphere.indices, cylinder.indices, TriangleIndices, rev);
  }

  /** Vertex i of section k sits at that section's base vertex plus i in the packed
      vertex list: the mesh's own position, with the section's colour. */
  lemma PackedVertexAt(grid: Mesh, sphere: Mesh, cylinder: Mesh, grid1: Mesh, k: nat, i: int)
    requires k < 5 && 0 <= i < |Sections(grid, sphere, cylinder, grid1)[k].vertices|
    ensures 0 <= SceneDraws(grid, sphere, cylinder, grid1)[k].baseVertexLocation + i
              < |PackedVertices(grid, sphere, cylinder, grid1)|
    ensures PackedVertices(grid, sphere, cylinder, grid1)[SceneDraws(grid, sphere, cylinder, grid1)[k].baseVertexLocation + i]
      == Sections(grid, sphere, cylinder, grid1)[k].vertices[i]
  {
    var ss := Sections(grid, sphere, cylinder, grid1);
    PackedLayout(grid, sphere, cylinder, grid1);
    assert Draws(ss)[k] == DrawOf(ss, k);
    ConcatAt(VertexLists(ss), k, i);
  }

  /** Index i of section k sits at that section's start index plus i in the packed index
      list, unchanged: the generated meshes' own indices, the triangle's 0, 2, 1, and the
      second grid's list back to front. */
  lemma PackedIndexAt(grid: Mesh, sphere: Mesh, cylinder: Mesh, grid1: Mesh, k: nat, i: int)
    requires k < 5 && 0 <= i < |Sections(grid, sphere, cylinder, grid1)[k].indices|
    ensures 0 <= SceneDraws(grid, sphere, cylinder, grid1)[k].startIndexLocation + i
              < |PackedIndices(grid, sphere, cylinder, grid1)|
    ensures PackedIndices(grid, sphere, cylinder, grid1)[SceneDraws(grid, sphere, cylinder, grid1)[k].startIndexLocation + i]
      == Sections(grid, sphere, cylinder, grid1)[k].indices[i]
    ensures k == 4 ==> Sections(grid, sphere, cylinder, grid1)[k].indices[i] == grid1.indices[|grid1.indices| - 1 - i]
  {
    var ss := Sections(grid, sphere, cylinder, grid1);
    PackedLayout(grid, sphere, cylinder, grid1);
    assert Draws(ss)[k] == DrawOf(ss, k);
    ConcatAt(IndexLists(ss), k, i);
  }

  /** With each generated mesh's indices naming its own vertices, each of the five draws
      reads only entries that exist and fetches exactly its own mesh's vertices in its own
      index order, with the mesh's colour: the triangle as vertices 0, 2, 1, the second grid
      back to front. */
  lemma DrawsRenderOwnMesh(grid: Mesh, sphere: Mesh, cylinder: Mesh, grid1: Mesh, k: nat)
    requires grid.Valid() && sphere.Valid() && cylinder.Valid() && grid1.Valid()
    requires k < 5
    ensures InBounds(Packing.Vertices(Sections(grid, sphere, cylinder, grid1)),
      Packing.Indices(Sections(grid, sphere, cylinder, grid1)), Draws(Sections(grid, sphere, cylinder, grid1))[k])
    ensures Sections(grid, sphere, cylinder, grid1)[k].Valid()
    ensures Fetch(Packing.Vertices(Sections(grid, sphere, cylinder, grid1)),
      Packing.Indices(Sections(grid, sphere, cylinder, grid1)), Draws(Sections(grid, sphere, cylinder, grid1))[k])
      == Resolve(Sections(grid, sphere, cylinder, grid1)[k])
    ensures k == 3 ==> (Resolve(Sections(grid, sphere, cylinder, grid1)[k]) ==
      [TriangleVertices[0], TriangleVertices[2], TriangleVertices[1]])
    ensures k == 4 ==> forall j :: 0 <= j < |grid1.indices| ==>
      Resolve(Sections(grid, sphere, cylinder, grid1)[k])[j] ==
        VertexPC(grid1.vertices[grid1.indices[|grid1.indices| - 1 - j]], ForestGreen)
  {
    var ss := Sections(grid, sphere, cylinder, grid1);
    if k == 4 {
      assert forall j :: 0 <= j < |grid1.indices| ==>
        Reversed(grid1.indices)[j] == grid1.indices[|grid1.indices| - 1 - j];
    }
    assert ss[k].Valid();
    DrawFetchesSection(ss, k);
  }

  /** The five draw ranges are adjacent and in order, and every position of the packed
      index list is read by exactly one of them. */
  lemma DrawRangesCoverIndices(grid: Mesh, sphere: Mesh, cylinder: Mesh, grid1: Mesh, p: int)
    requires 0 <= p < |grid.indices| + |sphere.indices| + |cylinder.indices| + 3 + |grid1.indices|
    ensures forall k :: 0 <= k < 4 ==>
      Draws(Sections(grid, sphere, cylinder, grid1))[k].startIndexLocation
        + Draws(Sections(grid, sphere, cylinder, grid1))[k].indexCount
        == Draws(Sections(grid, sphere, cylinder, grid1))[k + 1].startIndexLocation
    ensures exists k :: 0 <= k < 5 && Covers(Draws(Sections(grid, sphere, cylinder, grid1))[k], p)
    ensures forall k1, k2 ::
      (0 <= k1 < 5 && 0 <= k2 < 5 &&
       Covers(Draws(Sections(grid, sphere, cylinder, grid1))[k1], p) &&
       Covers(Draws(Sections(grid, sphere, cylinder, grid1))[k2], p)) ==> k1 == k2
  {
    var ss := Sections(grid, sphere, cylinder, grid1);
    PackedLayout(grid, sphere, cylinder, grid1);
    DrawsTile(ss);
    DrawRangesPartition(ss, p);
  }

  /** The reversed second-grid index list keeps every index and its multiplicity. */
  lemma ReversedGridSameIndices(grid1: Mesh)
    ensures |Reversed(grid1.indices)| == |grid1.indices|
    ensures multiset(Reversed(grid1.indices)) == multiset(grid1.indices)
  {
    ReversedIsPermutation(grid1.indices);
  }

  /** Which way the bounce code in UpdateScene goes on a frame. Its conditions on the
      sphere's float position are not modelled: a frame is one of the three branches. */
  datatype BounceBranch =
      /** The sphere is short of z = 55 and strictly between the two turning heights. */
    | Fall
      /** The sphere is short of z = 55 and has reached a turning height. */
    | Turn
      /** The sphere is past z = 55: gravity, step and yOffset are left alone. */
    | Landed

  /** The integer part of the bounce state, and the step counter (a float, as a real). */
  datatype BounceState = BounceState(gravity: int, step: real, yOffset: int)

  /** The values the constructor sets. */
  const InitialBounce := BounceState(-1, 0.0, 1)

  /** gravity is -1 (down) with yOffset 1, or 1 (up) with yOffset 0. */
  predicate Consistent(s: BounceState) {
    (s.gravity == -1 && s.yOffset == 1) || (s.gravity == 1 && s.yOffset == 0)
  }

  /** One frame of the bounce code. */
  function BounceStep(s: BounceState, branch: BounceBranch): (r: BounceState)
    ensures Consistent(s) ==> Consistent(r)
    ensures branch == Turn ==> r.gravity == -s.gravity && r.step == 0.0 && (r.yOffset == 1 <==> r.gravity == -1)
    ensures branch == Fall ==> r.gravity == s.gravity && r.yOffset == s.yOffset && r.step > s.step
    ensures branch == Landed ==> r == s
  {
    match branch
    case Fall => s.(step := s.step + 0.02)
    case Turn =>
      var g := -s.gravity;
      BounceState(g, 0.0, if g == -1 then 1 else 0)
    case Landed => s
  }

  /** The bounce state after a run of frames from the constructor's values. */
  function BounceRun(frames: seq<BounceBranch>): BounceState {
    if frames == [] then InitialBounce
    else BounceStep(BounceRun(frames[..|frames| - 1]), frames[|frames| - 1])
  }

  /** How many frames of a run turned. */
  function Turns(frames: seq<BounceBranch>): nat {
    if frames == [] then 0
    else Turns(frames[..|frames| - 1]) + (if frames[|frames| - 1] == Turn then 1 else 0)
  }

  /** However the frames go: gravity stays -1 or 1 with the matching yOffset, it is down
      exactly after an even number of turns, and step never goes negative. */
  lemma {:induction false} BounceInvariant(frames: seq<BounceBranch>)
    ensures Consistent(BounceRun(frames))
    ensures BounceRun(frames).gravity == (if Turns(frames) % 2 == 0 then -1 else 1)
    ensures BounceRun(frames).step >= 0.0
  {
    if frames != [] {
      BounceInvariant(frames[..|frames| - 1]);
    }
  }

  /** The resources Dispose releases, in its order, and its guard. */
  const OwnedResources: seq<Lifecycle.Resource> := [
    Lifecycle.VertexBuffer, Lifecycle.IndexBuffer, Lifecycle.InputLayout, Lifecycle.Effect,
    Lifecycle.DiffuseMapSphere, Lifecycle.DiffuseMapFloor
  ]
  const DisposeGuard: Lifecycle.Guard := Lifecycle.FlagWhenDisposing

  /** Any run of Dispose calls: every call ends with base.Dispose; the first call with
      disposing = true sets the flag and releases the six resources, once each and in the
      order written, before its own base.Dispose; no other call releases anything. */
  lemma DisposeOutcome(calls: seq<bool>)
    ensures Lifecycle.Run(DisposeGuard, OwnedResources, calls).log ==
      if true in calls then
        Lifecycle.BaseCalls(Lifecycle.FirstTrue(calls)) + Lifecycle.ReleaseCalls(OwnedResources)
        + Lifecycle.BaseCalls(|calls| - Lifecycle.FirstTrue(calls))
      else Lifecycle.BaseCalls(|calls|)
    ensures Lifecycle.Run(DisposeGuard, OwnedResources, calls).disposed == (true in calls)
    ensures Lifecycle.Released(Lifecycle.Run(DisposeGuard, OwnedResources, calls).log) ==
      (if true in calls then OwnedResources else [])
    ensures Lifecycle.NoDuplicates(OwnedResources)
  {
    Lifecycle.OutcomeWhenDisposing(OwnedResources, calls);
  }

  /** The vertex part of BuildGeometryBuffers: the four foreach loops and the three gold
      vertices between the cylinder and the second grid. */
  method PackVertices(grid: Mesh, sphere: Mesh, cylinder: Mesh, grid1: Mesh) returns (vs: seq<Vertex>)
    ensures vs == PackedVertices(grid, sphere, cylinder, grid1)
  {
    vs := AppendColored([], grid.vertices, Green);
    vs := AppendColored(vs, sphere.vertices, Red);
    vs := AppendColored(vs, cylinder.vertices, Black);
    ghost var beforeTriangle := vs;
    vs := vs + [VertexPC(Vec3(-1.0, 1.0, 0.0), Gold)];
    vs := vs + [VertexPC(Vec3(1.0, 1.0, 0.0), Gold)];
    vs := vs + [VertexPC(Vec3(0.0, 2.0, 0.0), Gold)];
    assert vs == beforeTriangle + TriangleVertices;
    vs := AppendColored(vs, grid1.vertices, ForestGreen);
  }

  /** The index part of BuildGeometryBuffers: the three AddRange calls, the triangle's
      indices 0, 2, 1, and the second grid's list reversed in place and then added. */
  method PackIndices(grid: Mesh, sphere: Mesh, cylinder: Mesh, grid1: Mesh) returns (indices: seq<int>)
    ensures indices == PackedIndices(grid, sphere, cylinder, grid1)
  {
    indices := grid.indices;
    indices := indices + sphere.indices;
    indices := indices + cylinder.indices;
    ghost var beforeTriangle := indices;
    indices := indices + [0];
    indices := indices + [2];
    indices := indices + [1];
    assert indices == beforeTriangle + TriangleIndices;
    var grid1Indices := new int[|grid1.indices|](j requires 0 <= j < |grid1.indices| => grid1.indices[j]);
    assert grid1Indices[..] == grid1.indices;
    ReverseGridIndices(grid1Indices);
    indices := indices + grid1Indices[..];
  }

  /** The demo's packing bookkeeping, its device buffers and its bounce state. */
  class RollingSphereApp {
    var gridVertexOffset: int
    var sphereVertexOffset: int
    var cylVertexOffset: int
    var triangleVertexOffset: int
    var grid1VertexOffset: int
    var gridIndexOffset: int
    var sphereIndexOffset: int
    var cylIndexOffset: int
    var triangleIndexOffset: int
    var grid1IndexOffset: int
    var gridIndexCount: int
    var sphereIndexCount: int
    var cylIndexCount: int
    var triangleIndexCount: int
    var grid1IndexCount: int
    var vertexBuffer: Option<GpuBuffer<Vertex>>
    var indexBuffer: Option<GpuBuffer<int>>
    var gravity: int
    var step: real
    var yOffset: int

    function Bounce(): BounceState
      reads this`gravity, this`step, this`yOffset
    {
      BounceState(gravity, step, yOffset)
    }

    /** The five DrawIndexed calls DrawScene issues in every effect pass, in its order. */
    function DrawCalls(): seq<DrawCall>
      reads this`gridIndexCount, this`gridIndexOffset, this`gridVertexOffset
      reads this`sphereIndexCount, this`sphereIndexOffset, this`sphereVertexOffset
      reads this`cylIndexCount, this`cylIndexOffset, this`cylVertexOffset
      reads this`triangleIndexCount, this`triangleIndexOffset, this`triangleVertexOffset
      reads this`grid1IndexCount, this`grid1IndexOffset, this`grid1VertexOffset
    {
      [ DrawIndexed(gridIndexCount, gridIndexOffset, gridVertexOffset),
        DrawIndexed(sphereIndexCount, sphereIndexOffset, sphereVertexOffset),
        DrawIndexed(cylIndexCount, cylIndexOffset, cylVertexOffset),
        DrawIndexed(triangleIndexCount, triangleIndexOffset, triangleVertexOffset),
        DrawIndexed(grid1IndexCount, grid1IndexOffset, grid1VertexOffset) ]
    }

    constructor ()
      ensures DrawCalls() == seq(5, _ => DrawIndexed(0, 0, 0))
      ensures vertexBuffer == None && indexBuffer == None
      ensures Bounce() == InitialBounce
    {
      gridVertexOffset, sphereVertexOffset, cylVertexOffset, triangleVertexOffset, grid1VertexOffset := 0, 0, 0, 0, 0;
      gridIndexOffset, sphereIndexOffset, cylIndexOffset, triangleIndexOffset, grid1IndexOffset := 0, 0, 0, 0, 0;
      gridIndexCount, sphereIndexCount, cylIndexCount, triangleIndexCount, grid1IndexCount := 0, 0, 0, 0, 0;
      vertexBuffer, indexBuffer := None, None;
      gravity, step, yOffset := -1, 0.0, 1;
    }

    /** The first block of BuildGeometryBuffers: each mesh's base vertex is the previous
        one's plus the previous mesh's vertex count, the triangle counting 3. */
    method SetVertexOffsets(grid: Mesh, sphere: Mesh, cylinder: Mesh)
      modifies this`gridVertexOffset, this`sphereVertexOffset, this`cylVertexOffset
      modifies this`triangleVertexOffset, this`grid1VertexOffset
      ensures gridVertexOffset == 0
      ensures sphereVertexOffset == |grid.vertices|
      ensures cylVertexOffset == |grid.vertices| + |sphere.vertices|
      ensures triangleVertexOffset == |grid.vertices| + |sphere.vertices| + |cylinder.vertices|
      ensures grid1VertexOffset == |grid.vertices| + |sphere.vertices| + |cylinder.vertices| + 3
    {
      gridVertexOffset := 0;
      sphereVertexOffset := |grid.vertices|;
      cylVertexOffset := sphereVertexOffset + |sphere.vertices|;
      triangleVertexOffset := cylVertexOffset + |cylinder.vertices|;
      grid1VertexOffset := triangleVertexOffset + 3;
    }

    /** The second block: each mesh's index count, the triangle's fixed at 3. */
    method SetIndexCounts(grid: Mesh, sphere: Mesh, cylinder: Mesh, grid1: Mesh)
      modifies this`gridIndexCount, this`sphereIndexCount, this`cylIndexCount
      modifies this`triangleIndexCount, this`grid1IndexCount
      ensures gridIndexCount == |grid.indices| && sphereIndexCount == |sphere.indices|
      ensures cylIndexCount == |cylinder.indices| && triangleIndexCount == 3
      ensures grid1IndexCount == |grid1.indices|
    {
      gridIndexCount := |grid.indices|;
      sphereIndexCount := |sphere.indices|;
      cylIndexCount := |cylinder.indices|;
      triangleIndexCount := 3;
      grid1IndexCount := |grid1.indices|;
    }

    /** The third block: each mesh's start index is the previous one's plus the previous
        mesh's index count. */
    method SetIndexOffsets()
      modifies this`gridIndexOffset, this`sphereIndexOffset, this`cylIndexOffset
      modifies this`triangleIndexOffset, this`grid1IndexOffset
      ensures gridIndexOffset == 0
      ensures sphereIndexOffset == gridIndexCount
      ensures cylIndexOffset == gridIndexCount + sphereIndexCount
      ensures triangleIndexOffset == gridIndexCount + sphereIndexCount + cylIndexCount
      ensures grid1IndexOffset == gridIndexCount + sphereIndexCount + cylIndexCount + triangleIndexCount
    {
      gridIndexOffset := 0;
      sphereIndexOffset := gridIndexCount;
      cylIndexOffset := sphereIndexOffset + sphereIndexCount;
      triangleIndexOffset := cylIndexOffset + cylIndexCount;
      grid1IndexOffset := triangleIndexOffset + triangleIndexCount;
    }

    /** The three bookkeeping blocks of BuildGeometryBuffers together: the five draw calls
        take the offsets and counts of SceneDraws. */
    method SetLayout(grid: Mesh, sphere: Mesh, cylinder: Mesh, grid1: Mesh)
      modifies this`gridVertexOffset, this`sphereVertexOffset, this`cylVertexOffset
      modifies this`triangleVertexOffset, this`grid1VertexOffset
      modifies this`gridIndexCount, this`sphereIndexCount, this`cylIndexCount
      modifies this`triangleIndexCount, this`grid1IndexCount
      modifies this`gridIndexOffset, this`sphereIndexOffset, this`cylIndexOffset
      modifies this`triangleIndexOffset, this`grid1IndexOffset
      ensures DrawCalls() == SceneDraws(grid, sphere, cylinder, grid1)
      ensures gridIndexCount + sphereIndexCount + cylIndexCount + 3 + grid1IndexCount ==
        |grid.indices| + |sphere.indices| + |cylinder.indices| + 3 + |grid1.indices|
    {
      SetVertexOffsets(grid, sphere, cylinder);
      SetIndexCounts(grid, sphere, cylinder, grid1);
      SetIndexOffsets();
    }

    /** BuildGeometryBuffers for the four generated meshes and the vertex stride in bytes:
        the five draw calls take the offsets and counts of SceneDraws, the vertex buffer is
        stride bytes per vertex of totalVertexCount and holds the packed vertex list, the
        index buffer is 4 bytes per index of totalIndexCount and holds the packed index
        list. The bounce state is left alone. */
    method BuildGeometryBuffers(grid: Mesh, sphere: Mesh, cylinder: Mesh, grid1: Mesh, stride: int)
      modifies this`gridVertexOffset, this`sphereVertexOffset, this`cylVertexOffset
      modifies this`triangleVertexOffset, this`grid1VertexOffset
      modifies this`gridIndexCount, this`sphereIndexCount, this`cylIndexCount
      modifies this`triangleIndexCount, this`grid1IndexCount
      modifies this`gridIndexOffset, this`sphereIndexOffset, this`cylIndexOffset
      modifies this`triangleIndexOffset, this`grid1IndexOffset
      modifies this`vertexBuffer, this`indexBuffer
      ensures DrawCalls() == SceneDraws(grid, sphere, cylinder, grid1)
      ensures vertexBuffer == Some(GpuBuffer(
        BufferDescription(stride * (|grid.vertices| + |sphere.vertices| + |cylinder.vertices| + 3 + |grid1.vertices|),
          BindVertexBuffer),
        PackedVertices(grid, sphere, cylinder, grid1)))
      ensures indexBuffer == Some(GpuBuffer(
        BufferDescription(SizeOfIndex * (|grid.indices| + |sphere.indices| + |cylinder.indices| + 3 + |grid1.indices|),
          BindIndexBuffer),
        PackedIndices(grid, sphere, cylinder, grid1)))
      ensures Bounce() == old(Bounce())
    {
      SetLayout(grid, sphere, cylinder, grid1);

      var totalVertexCount := |grid.vertices| + |sphere.vertices| + |cylinder.vertices| + 3 + |grid1.vertices|;
      var totalIndexCount := gridIndexCount + sphereIndexCount + cylIndexCount + 3 + grid1IndexCount;

      var vs := PackVertices(grid, sphere, cylinder, grid1);
      vertexBuffer := Some(GpuBuffer(BufferDescription(stride * totalVertexCount, BindVertexBuffer), vs));
      var indices := PackIndices(grid, sphere, cylinder, grid1);
      indexBuffer := Some(GpuBuffer(BufferDescription(SizeOfIndex * totalIndexCount, BindIndexBuffer), indices));
    }

    /** The bounce part of UpdateScene on a frame that takes the given branch. */
    method UpdateScene(branch: BounceBranch)
      modifies this`gravity, this`step, this`yOffset
      ensures Bounce() == BounceStep(old(Bounce()), branch)
      ensures DrawCalls() == old(DrawCalls())
      ensures vertexBuffer == old(vertexBuffer) && indexBuffer == old(indexBuffer)
    {
      match branch {
        case Fall =>
          step := step + 0.02;
        case Turn =>
          gravity := -gravity;
          step := 0.0;
          if gravity == -1 {
            yOffset := 1;
          } else {
            yOffset := 0;
          }
        case Landed =>
      }
    }
  }
}
