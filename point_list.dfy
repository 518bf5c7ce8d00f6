/** The point-list demo: eight black points on the plane z = 0, uploaded as a vertex buffer
    only and drawn by one Draw(8, 0) per effect pass with the point-list topology. Its
    Dispose sets the flag only when `disposing` is true. */
module PointList {
  import opened Common
  import Lifecycle

  /** The vertex table of BuildGeometryBuffers. */
  const Vertices: seq<VertexPC<Point3>> := [
    VertexPC(Point3(2, 1, 0), Black),
    VertexPC(Point3(1, 1, 0), Black),
    VertexPC(Point3(0, 1, 0), Black),
    VertexPC(Point3(1, 0, 0), Black),
    VertexPC(Point3(0, 0, 0), Black),
    VertexPC(Point3(0, -1, 0), Black),
    VertexPC(Point3(-1, -1, 0), Black),
    VertexPC(Point3(-2, -1, 0), Black)
  ]

  /** The draw call DrawScene issues in every effect pass, and the topology it binds. */
  const SceneDraw: DrawCall := Draw(8, 0)
  const SceneTopology: Topology := PointList

  /** The buffers BuildGeometryBuffers creates, for a vertex stride in bytes: one vertex
      buffer, no index buffer. It holds the vertex table and is stride bytes for each of the vertices Draw(8, 0)
      reads, and that draw stays inside it and fetches its whole contents in order. */
  function GeometryBuffers(stride: int): (buffers: seq<GpuBuffer<VertexPC<Point3>>>)
    ensures |buffers| == 1
    ensures buffers[0].data == Vertices
    ensures forall b :: b in buffers ==> b.description.bindFlags == BindVertexBuffer
    ensures buffers[0].description == BufferDescription(stride * SceneDraw.vertexCount, BindVertexBuffer)
    ensures InBoundsNonIndexed(buffers[0].data, SceneDraw)
    ensures FetchNonIndexed(buffers[0].data, SceneDraw) == buffers[0].data
  {
    SceneDrawCoversTable();
    [GpuBuffer(BufferDescription(stride * |Vertices|, BindVertexBuffer), Vertices)]
  }

  /** The resources Dispose releases, in its order, and its guard. */
  const OwnedResources: seq<Lifecycle.Resource> :=
    [Lifecycle.VertexBuffer, Lifecycle.InputLayout, Lifecycle.Effect]
  const DisposeGuard: Lifecycle.Guard := Lifecycle.FlagWhenDisposing

  /** Draw(8, 0) reads exactly the whole table, in order, starting at its first vertex. */
  lemma SceneDrawCoversTable()
    ensures |Vertices| == 8
    ensures SceneDraw.vertexCount == |Vertices| && SceneDraw.startVertexLocation == 0
    ensures InBoundsNonIndexed(Vertices, SceneDraw)
    ensures FetchNonIndexed(Vertices, SceneDraw) == Vertices
    ensures PrimitiveCount(SceneTopology, SceneDraw.vertexCount) == |Vertices|
  {
    assert Vertices[0..8] == Vertices;
  }

  /** The points lie on z = 0, with x and y in [-2, 2]. */
  lemma PointsOnPlane()
    ensures forall i :: 0 <= i < |Vertices| ==>
      Vertices[i].position.z == 0 && -2 <= Vertices[i].position.x <= 2 && -2 <= Vertices[i].position.y <= 2
  {
  }

  /** Any run of Dispose calls: every call ends with base.Dispose; the first call with
      disposing = true sets the flag and releases the three resources, once each and in the
      order written, before its own base.Dispose; no other call releases anything. */
  lemma DisposeOutcome(calls: seq<bool>)
    ensures Lifecycle.Run(DisposeGuard, OwnedResources, calls).log ==
      if true in calls then
        Lifecycle.BaseCalls(Lifecycle.FirstTrue(calls)) + Lifecycle.ReleaseCalls(OwnedResources)
        + Lifecycle.BaseCalls(|calls| - Lifecycle.FirstTrue(calls))
      else Lifecycle.BaseCalls(|calls|)
    ensures Lifecycle.Run(DisposeGuard, OwnedResources, calls).disposed == (true in calls)
    ensures Lifecycle.Released(Lifecycle.Run(DisposeGuard, OwnedResources, calls).log) ==
      (if true in calls then OwnedResources else [])
    ensures Lifecycle.NoDuplicates(OwnedResources)
  {
    Lifecycle.OutcomeWhenDisposing(OwnedResources, calls);
  }
}
