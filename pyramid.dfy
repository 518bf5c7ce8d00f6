/** The pyramid demo: a square base of four green corners and a red apex, written out by
    hand, drawn as a triangle list of six triangles by one DrawIndexed(18, 0, 0) per effect
    pass. Its Dispose sets the flag only when `disposing` is true. */
module Pyramid {
  import opened Common
  import opened Tables
  import Lifecycle

  /** The vertex table of BuildGeometryBuffers: the base corners first, the apex last. */
  const Vertices: seq<VertexPC<Point3>> := [
    VertexPC(Point3(-2, -2, 2), Green),
    VertexPC(Point3(2, -2, 2), Green),
    VertexPC(Point3(-2, -2, -2), Green),
    VertexPC(Point3(2, -2, -2), Green),
    VertexPC(Point3(0, 2, 0), Red)
  ]

  /** The index table of BuildGeometryBuffers: the front, back, left and right sides, then
      the two bottom triangles. The edge list commented out after them is not part of it. */
  const Indices: seq<int> := [
    0, 1, 4,
    2, 4, 3,
    0, 4, 2,
    1, 3, 4,
    0, 2, 1,
    1, 2, 3
  ]

  /** The index of the apex in the vertex table. */
  const Apex: int := 4

  /** The six triangles, as the table lists them. */
  const FrontSide: seq<int> := [0, 1, 4]
  const BackSide: seq<int> := [2, 4, 3]
  const LeftSide: seq<int> := [0, 4, 2]
  const RightSide: seq<int> := [1, 3, 4]
  const BottomFirst: seq<int> := [0, 2, 1]
  const BottomSecond: seq<int> := [1, 2, 3]

  /** The draw call DrawScene issues in every effect pass, and the topology it binds. */
  const SceneDraw: DrawCall := DrawIndexed(18, 0, 0)
  const SceneTopology: Topology := TriangleList

  /** The two buffers BuildGeometryBuffers creates, for a vertex stride in bytes: the
      vertex table at stride bytes per vertex and the index table at four bytes per index,
      so that the scene's draw call reads only entries the buffers hold. */
  function GeometryBuffers(stride: int): (buffers: (GpuBuffer<VertexPC<Point3>>, GpuBuffer<int>))
    ensures buffers.0 == GpuBuffer(BufferDescription(stride * 5, BindVertexBuffer), Vertices)
    ensures buffers.1 == GpuBuffer(BufferDescription(SizeOfIndex * 18, BindIndexBuffer), Indices)
    ensures InBounds(buffers.0.data, buffers.1.data, SceneDraw)
  {
    SceneDrawCoversTable();
    (GpuBuffer(BufferDescription(stride * |Vertices|, BindVertexBuffer), Vertices),
     GpuBuffer(BufferDescription(SizeOfIndex * |Indices|, BindIndexBuffer), Indices))
  }

  /** The resources Dispose releases, in its order, and its guard. */
  const OwnedResources: seq<Lifecycle.Resource> :=
    [Lifecycle.VertexBuffer, Lifecycle.IndexBuffer, Lifecycle.InputLayout, Lifecycle.Effect]
  const DisposeGuard: Lifecycle.Guard := Lifecycle.FlagWhenDisposing

  /** Vertices i and j exist and share their x or their z coordinate: on the base, they
      are the two ends of an edge rather than of a diagonal. */
  predicate Adjacent(i: int, j: int) {
    && 0 <= i < |Vertices| && 0 <= j < |Vertices|
    && (Vertices[i].position.x == Vertices[j].position.x || Vertices[i].position.z == Vertices[j].position.z)
  }

  /** A side triangle: it has the apex exactly once, and its two other corners are adjacent. */
  predicate SideTriangle(tri: seq<int>)
    requires |tri| == 3
  {
    && Occurrences(tri, Apex) == 1
    && (tri[0] != Apex && tri[1] != Apex ==> Adjacent(tri[0], tri[1]))
    && (tri[0] != Apex && tri[2] != Apex ==> Adjacent(tri[0], tri[2]))
    && (tri[1] != Apex && tri[2] != Apex ==> Adjacent(tri[1], tri[2]))
  }

  /** 5 vertices, 18 indices, each index naming one of the 5. */
  lemma TableSizes()
    ensures |Vertices| == 5 && |Indices| == 18
    ensures IndicesBelow(Indices, |Vertices|)
  {
    assert forall j :: 0 <= j < |Indices| ==> 0 <= Indices[j] < 5;
  }

  /** DrawIndexed(18, 0, 0) reads exactly the whole index table, from its start and with
      no base offset, and every vertex it fetches exists. */
  lemma SceneDrawCoversTable()
    ensures SceneDraw.indexCount == |Indices|
    ensures SceneDraw.startIndexLocation == 0 && SceneDraw.baseVertexLocation == 0
    ensures InBounds(Vertices, Indices, SceneDraw)
    ensures PrimitiveCount(SceneTopology, SceneDraw.indexCount) == 6
  {
    TableSizes();
  }

  /** The table is six whole triangles, each with three distinct corners. */
  lemma SixProperTriangles()
    ensures |Indices| / 3 == 6 && ProperTriangles(Indices)
  {
    forall t | 0 <= t < 6
      ensures Distinct3(Triangle(Indices, t))
    {
      assert Triangle(Indices, t) == [Indices[3 * t], Indices[3 * t + 1], Indices[3 * t + 2]];
    }
  }

  /** The index table is the six triangles in order. */
  lemma TableIsSixTriangles()
    ensures Indices == FrontSide + BackSide + LeftSide + RightSide + BottomFirst + BottomSecond
  {
    assert forall j :: 0 <= j < 18 ==>
      Indices[j] == (FrontSide + BackSide + LeftSide + RightSide + BottomFirst + BottomSecond)[j];
  }

  /** Each of the four side triangles has the apex exactly once, and its other two corners
      form an edge of the base. */
  lemma SidesMeetAtApex()
    ensures SideTriangle(FrontSide) && SideTriangle(BackSide)
    ensures SideTriangle(LeftSide) && SideTriangle(RightSide)
  {
    assert multiset(FrontSide) == multiset{0, 1, 4};
    assert multiset(BackSide) == multiset{2, 4, 3};
    assert multiset(LeftSide) == multiset{0, 4, 2};
    assert multiset(RightSide) == multiset{1, 3, 4};
  }

  /** The two bottom triangles use only base corners, and between them all four. */
  lemma BottomCoversBase()
    ensures forall j :: 0 <= j < 3 ==> 0 <= BottomFirst[j] < Apex && 0 <= BottomSecond[j] < Apex
    ensures Elems(BottomFirst) + Elems(BottomSecond) == {0, 1, 2, 3}
  {
  }

  /** The base corners are at y = -2, the apex at y = 2. */
  lemma BaseBelowApex()
    ensures forall i :: 0 <= i < |Vertices| && i != Apex ==> Vertices[i].position.y == -2
    ensures Vertices[Apex].position.y == 2
  {
  }

  /** Any run of Dispose calls: every call ends with base.Dispose; the first call with
      disposing = true sets the flag and releases the four resources, once each and in the
      order written, before its own base.Dispose; no other call releases anything. */
  lemma DisposeOutcome(calls: seq<bool>)
    ensures Lifecycle.Run(DisposeGuard, OwnedResources, calls).log ==
      if true in calls then
        Lifecycle.BaseCalls(Lifecycle.FirstTrue(calls)) + Lifecycle.ReleaseCalls(OwnedResources)
        + Lifecycle.BaseCalls(|calls| - Lifecycle.FirstTrue(calls))
      else Lifecycle.BaseCalls(|calls|)
    ensures Lifecycle.Run(DisposeGuard, OwnedResources, calls).disposed == (true in calls)
    ensures Lifecycle.Released(Lifecycle.Run(DisposeGuard, OwnedResources, calls).log) ==
      (if true in calls then OwnedResources else [])
    ensures Lifecycle.NoDuplicates(OwnedResources)
  {
    Lifecycle.OutcomeWhenDisposing(OwnedResources, calls);
  }
}
