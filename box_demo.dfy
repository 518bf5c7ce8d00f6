/** The box demo: a cube of eight coloured corners, written out by hand, drawn as a
    triangle list of twelve triangles by one DrawIndexed(36, 0, 0) per effect pass.
    Its Dispose sets the flag on the first call whatever `disposing` is. */
module BoxDemo {
  import opened Common
  import opened Tables
  import Lifecycle

  /** The vertex table of BuildGeometryBuffers. */
  const Vertices: seq<VertexPC<Point3>> := [
    VertexPC(Point3(-1, -1, -1), White),
    VertexPC(Point3(-1, 1, -1), Black),
    VertexPC(Point3(1, 1, -1), Red),
    VertexPC(Point3(1, -1, -1), Green),
    VertexPC(Point3(-1, -1, 1), Blue),
    VertexPC(Point3(-1, 1, 1), Yellow),
    VertexPC(Point3(1, 1, 1), Cyan),
    VertexPC(Point3(1, -1, 1), Magenta)
  ]

  /** The index table of BuildGeometryBuffers: two triangles per face, the faces in the
      order front, back, left, right, top, bottom. */
  const Indices: seq<int> := [
    0, 1, 2,  0, 2, 3,
    4, 6, 5,  4, 7, 6,
    4, 5, 1,  4, 1, 0,
    3, 2, 6,  3, 6, 7,
    1, 5, 6,  1, 6, 2,
    4, 0, 3,  4, 3, 7
  ]

  /** The draw call DrawScene issues in every effect pass, and the topology it binds. */
  const SceneDraw: DrawCall := DrawIndexed(36, 0, 0)
  const SceneTopology: Topology := TriangleList

  /** The two triangles of each face, as the table lists them. */
  const FrontFace: seq<int> := [0, 1, 2, 0, 2, 3]
  const BackFace: seq<int> := [4, 6, 5, 4, 7, 6]
  const LeftFace: seq<int> := [4, 5, 1, 4, 1, 0]
  const RightFace: seq<int> := [3, 2, 6, 3, 6, 7]
  const TopFace: seq<int> := [1, 5, 6, 1, 6, 2]
  const BottomFace: seq<int> := [4, 0, 3, 4, 3, 7]

  /** The two buffers BuildGeometryBuffers creates, for a vertex stride in bytes: the
      vertex table at stride bytes per vertex and the index table at four bytes per index,
      so that the scene's draw call reads only entries the buffers hold. */
  function GeometryBuffers(stride: int): (buffers: (GpuBuffer<VertexPC<Point3>>, GpuBuffer<int>))
    ensures buffers.0 == GpuBuffer(BufferDescription(stride * 8, BindVertexBuffer), Vertices)
    ensures buffers.1 == GpuBuffer(BufferDescription(SizeOfIndex * 36, BindIndexBuffer), Indices)
    ensures InBounds(buffers.0.data, buffers.1.data, SceneDraw)
  {
    SceneDrawCoversTable();
    (GpuBuffer(BufferDescription(stride * |Vertices|, BindVertexBuffer), Vertices),
     GpuBuffer(BufferDescription(SizeOfIndex * |Indices|, BindIndexBuffer), Indices))
  }

  /** The resources Dispose releases, in its order, and its guard. */
  const OwnedResources: seq<Lifecycle.Resource> :=
    [Lifecycle.VertexBuffer, Lifecycle.IndexBuffer, Lifecycle.Effect, Lifecycle.InputLayout]
  const DisposeGuard: Lifecycle.Guard := Lifecycle.FlagAlways

  /** 8 vertices, 36 indices, each index naming one of the 8. */
  lemma TableSizes()
    ensures |Vertices| == 8 && |Indices| == 36
    ensures IndicesBelow(Indices, |Vertices|)
  {
    assert forall j :: 0 <= j < |Indices| ==> 0 <= Indices[j] < 8;
  }

  /** DrawIndexed(36, 0, 0) reads exactly the whole index table, from its start and with
      no base offset, and every vertex it fetches exists. */
  lemma SceneDrawCoversTable()
    ensures SceneDraw.indexCount == |Indices|
    ensures SceneDraw.startIndexLocation == 0 && SceneDraw.baseVertexLocation == 0
    ensures InBounds(Vertices, Indices, SceneDraw)
    ensures PrimitiveCount(SceneTopology, SceneDraw.indexCount) == 12
  {
    TableSizes();
  }

  /** The table is twelve whole triangles, each with three distinct corners. */
  lemma TwelveProperTriangles()
    ensures |Indices| / 3 == 12 && ProperTriangles(Indices)
  {
    forall t | 0 <= t < 12
      ensures Distinct3(Triangle(Indices, t))
    {
      assert Triangle(Indices, t) == [Indices[3 * t], Indices[3 * t + 1], Indices[3 * t + 2]];
    }
  }

  /** Every corner coordinate is -1 or 1, and no two corners coincide. */
  lemma CornersOfCube()
    ensures forall i :: 0 <= i < |Vertices| ==>
      Vertices[i].position.x in {-1, 1} && Vertices[i].position.y in {-1, 1} && Vertices[i].position.z in {-1, 1}
    ensures forall i, j :: 0 <= i < j < |Vertices| ==> Vertices[i].position != Vertices[j].position
  {
  }

  /** The index table is the six faces in order, six indices each. */
  lemma TableIsSixFaces()
    ensures Indices == FrontFace + BackFace + LeftFace + RightFace + TopFace + BottomFace
  {
    assert forall j :: 0 <= j < 36 ==>
      Indices[j] == (FrontFace + BackFace + LeftFace + RightFace + TopFace + BottomFace)[j];
  }

  /** The front face uses exactly the four corners with z = -1. */
  lemma FrontFaceIsSquare()
    ensures QuadOnPlane(Vertices, FrontFace, Z, -1)
  {
    assert Elems(FrontFace) == {0, 1, 2, 3};
  }

  /** The back face uses exactly the four corners with z = 1. */
  lemma BackFaceIsSquare()
    ensures QuadOnPlane(Vertices, BackFace, Z, 1)
  {
    assert Elems(BackFace) == {4, 5, 6, 7};
  }

  /** The left face uses exactly the four corners with x = -1. */
  lemma LeftFaceIsSquare()
    ensures QuadOnPlane(Vertices, LeftFace, X, -1)
  {
    assert Elems(LeftFace) == {0, 1, 4, 5};
  }

  /** The right face uses exactly the four corners with x = 1. */
  lemma RightFaceIsSquare()
    ensures QuadOnPlane(Vertices, RightFace, X, 1)
  {
    assert Elems(RightFace) == {2, 3, 6, 7};
  }

  /** The top face uses exactly the four corners with y = 1. */
  lemma TopFaceIsSquare()
    ensures QuadOnPlane(Vertices, TopFace, Y, 1)
  {
    assert Elems(TopFace) == {1, 2, 5, 6};
  }

  /** The bottom face uses exactly the four corners with y = -1. */
  lemma BottomFaceIsSquare()
    ensures QuadOnPlane(Vertices, BottomFace, Y, -1)
  {
    assert Elems(BottomFace) == {0, 3, 4, 7};
  }

  /** Any run of Dispose calls: every call ends with base.Dispose; the first call sets the
      flag, and releases the four resources, once each and in the order written, before its
      own base.Dispose exactly when it has disposing = true; no other call releases anything. */
  lemma DisposeOutcome(calls: seq<bool>)
    ensures Lifecycle.Run(DisposeGuard, OwnedResources, calls).log ==
      if calls != [] && calls[0] then Lifecycle.ReleaseCalls(OwnedResources) + Lifecycle.BaseCalls(|calls|)
      else Lifecycle.BaseCalls(|calls|)
    ensures Lifecycle.Run(DisposeGuard, OwnedResources, calls).disposed == (calls != [])
    ensures Lifecycle.Released(Lifecycle.Run(DisposeGuard, OwnedResources, calls).log) ==
      (if calls != [] && calls[0] then OwnedResources else [])
    ensures Lifecycle.NoDuplicates(OwnedResources)
  {
    Lifecycle.OutcomeAlways(OwnedResources, calls);
  }
}
