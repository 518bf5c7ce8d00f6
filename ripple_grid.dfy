/** The ripple-grid demo: a generated grid whose vertices are lifted to a height field and
    coloured by height band, uploaded with the grid's own indices and drawn by one
    DrawIndexed(gridIndexCount, 0, 0) per effect pass. Its Dispose sets the flag only when
    `disposing` is true. */
module RippleGrid {
  import opened Common
  import Lifecycle

  /** The colour of a vertex at height y: the if-chain in BuildGeometryBuffers, which
      compares y with -0.6, -0.2, 0.2 and 0.4 in that order. The five bands are the
      half-open intervals between those thresholds. */
  function Band(y: real): (c: Color)
    ensures c == Red <==> y < -0.6
    ensures c == OrangeRed <==> -0.6 <= y < -0.2
    ensures c == Orange <==> -0.2 <= y < 0.2
    ensures c == Yellow <==> 0.2 <= y < 0.4
    ensures c == LightGoldenrodYellow <==> 0.4 <= y
  {
    if y < -0.6 then Red
    else if y < -0.2 then OrangeRed
    else if y < 0.2 then Orange
    else if y < 0.4 then Yellow
    else LightGoldenrodYellow
  }

  /** The place of a band colour in the chain, lowest heights first. */
  function BandRank(c: Color): nat {
    match c
    case Red => 0
    case OrangeRed => 1
    case Orange => 2
    case Yellow => 3
    case LightGoldenrodYellow => 4
    case _ => 5
  }

  /** A higher vertex never gets a band earlier in the chain. */
  lemma BandMonotone(y1: real, y2: real)
    requires y1 <= y2
    ensures BandRank(Band(y1)) <= BandRank(Band(y2))
    ensures BandRank(Band(y2)) < 5
  {
  }

  /** `vs` is the grid's vertex list remapped: same length and order, each position keeps
      its x and z, takes the height field's value at (x, z) as y, and is coloured by the
      band of that y. */
  predicate RemapOf(vs: seq<VertexPC<Vec3>>, positions: seq<Vec3>, height: (real, real) -> real) {
    && |vs| == |positions|
    && forall i :: 0 <= i < |positions| ==>
         && vs[i].position == Vec3(positions[i].x, height(positions[i].x, positions[i].z), positions[i].z)
         && vs[i].color == Band(vs[i].position.y)
  }

  /** The foreach loop of BuildGeometryBuffers over the grid's vertices. */
  method RemapVertices(positions: seq<Vec3>, height: (real, real) -> real) returns (vs: seq<VertexPC<Vec3>>)
    ensures RemapOf(vs, positions, height)
  {
    vs := [];
    for i := 0 to |positions|
      invariant RemapOf(vs, positions[..i], height)
    {
      var pos := positions[i];
      pos := pos.(y := height(pos.x, pos.z));
      var color: Color;
      if pos.y < -0.6 {
        color := Red;
      } else if pos.y < -0.2 {
        color := OrangeRed;
      } else if pos.y < 0.2 {
        color := Orange;
      } else if pos.y < 0.4 {
        color := Yellow;
      } else {
        color := LightGoldenrodYellow;
      }
      vs := vs + [VertexPC(pos, color)];
    }
    assert positions[..|positions|] == positions;
  }

  /** The resources Dispose releases, in its order, and its guard. */
  const OwnedResources: seq<Lifecycle.Resource> :=
    [Lifecycle.VertexBuffer, Lifecycle.IndexBuffer, Lifecycle.Effect, Lifecycle.InputLayout]
  const DisposeGuard: Lifecycle.Guard := Lifecycle.FlagWhenDisposing

  /** Any run of Dispose calls: every call ends with base.Dispose; the first call with
      disposing = true sets the flag and releases the four resources, once each and in the
      order written, before its own base.Dispose; no other call releases anything. */
  lemma DisposeOutcome(calls: seq<bool>)
    ensures Lifecycle.Run(DisposeGuard, OwnedResources, calls).log ==
      if true in calls then
        Lifecycle.BaseCalls(Lifecycle.FirstTrue(calls)) + Lifecycle.ReleaseCalls(OwnedResources)
        + Lifecycle.BaseCalls(|calls| - Lifecycle.FirstTrue(calls))
      else Lifecycle.BaseCalls(|calls|)
    ensures Lifecycle.Run(DisposeGuard, OwnedResources, calls).disposed == (true in calls)
    ensures Lifecycle.Released(Lifecycle.Run(DisposeGuard, OwnedResources, calls).log) ==
      (if true in calls then OwnedResources else [])
    ensures Lifecycle.NoDuplicates(OwnedResources)
  {
    Lifecycle.OutcomeWhenDisposing(OwnedResources, calls);
  }

  /** The demo's geometry state: the two device buffers and the index count DrawScene uses. */
  class RippleGridApp {
    var gridIndexCount: int
    var vertexBuffer: Option<GpuBuffer<VertexPC<Vec3>>>
    var indexBuffer: Option<GpuBuffer<int>>

    constructor ()
      ensures gridIndexCount == 0 && vertexBuffer == None && indexBuffer == None
    {
      gridIndexCount := 0;
      vertexBuffer := None;
      indexBuffer := None;
    }

    /** The draw call DrawScene issues in every effect pass. */
    function SceneDraw(): DrawCall
      reads this
    {
      DrawIndexed(gridIndexCount, 0, 0)
    }

    /** BuildGeometryBuffers for the generated grid, a height field and the vertex stride in
        bytes: the vertex buffer holds the remapped vertices and is stride bytes per vertex;
        the index buffer holds the grid's indices unchanged and is 4 bytes per index; the
        draw then covers the whole index list from its start with no base offset, and when
        the grid's indices name its own vertices every fetched vertex exists. */
    method BuildGeometryBuffers(grid: Mesh, height: (real, real) -> real, stride: int)
      modifies this
      ensures vertexBuffer.Some? && RemapOf(vertexBuffer.value.data, grid.vertices, height)
      ensures vertexBuffer.value.description ==
        BufferDescription(stride * |vertexBuffer.value.data|, BindVertexBuffer)
      ensures indexBuffer == Some(GpuBuffer(BufferDescription(SizeOfIndex * |grid.indices|, BindIndexBuffer), grid.indices))
      ensures gridIndexCount == |grid.indices|
      ensures SceneDraw().indexCount == |indexBuffer.value.data|
      ensures grid.Valid() ==> InBounds(vertexBuffer.value.data, indexBuffer.value.data, SceneDraw())
    {
      var vertices := RemapVertices(grid.vertices, height);
      vertexBuffer := Some(GpuBuffer(BufferDescription(stride * |vertices|, BindVertexBuffer), vertices));
      indexBuffer := Some(GpuBuffer(BufferDescription(SizeOfIndex * |grid.indices|, BindIndexBuffer), grid.indices));
      gridIndexCount := |grid.indices|;
    }
  }
}
