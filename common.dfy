/** Values shared by all demos: colours, positions, the position-and-colour vertex
    layout, meshes as the geometry generator hands them over, the integer arguments
    of the draw calls, and the descriptions of the buffers uploaded to the device. */
module Common {

  datatype Option<T> = None | Some(value: T)

  /** The named System.Drawing colours the demos give their vertices. */
  datatype Color =
    | White | Black | Red | Green | Blue | Yellow | Cyan | Magenta
    | Gold | ForestGreen | OrangeRed | Orange | LightGoldenrodYellow

  /** A position whose coordinates are integer literals (the hand-written vertex tables). */
  datatype Point3 = Point3(x: int, y: int, z: int)

  /** A position computed by the geometry generator or by a height function. The floats
      are modelled as reals: the demos only copy them and compare them with constants. */
  datatype Vec3 = Vec3(x: real, y: real, z: real)

  /** VertexPC: a position and a colour, the only vertex layout the demos upload. */
  datatype VertexPC<P> = VertexPC(position: P, color: Color)

  /** A generated mesh, reduced to what the demos read of it: the vertex positions
      and the triangle-list indices. */
  datatype Mesh = Mesh(vertices: seq<Vec3>, indices: seq<int>) {
    /** Every index names one of the mesh's own vertices: the generator's promise,
        which the demos rely on without checking it. */
    predicate Valid() {
      IndicesBelow(indices, |vertices|)
    }
  }

  /** Every index lies in [0, n). */
  function IndicesBelow(indices: seq<int>, n: int): (ok: bool)
    ensures ok <==> forall j :: 0 <= j < |indices| ==> 0 <= indices[j] < n
  {
    indices == [] || (0 <= indices[0] < n && IndicesBelow(indices[1..], n))
  }

  /** The primitive topologies the demos bind. */
  datatype Topology = TriangleList | PointList

  /** How many primitives the input assembler builds from `count` vertices under a
      topology: whole triangles of three, or one point each. */
  function PrimitiveCount(t: Topology, count: int): int {
    match t
    case TriangleList => count / 3
    case PointList => count
  }

  /** The integer arguments of the two draw calls the demos issue. */
  datatype DrawCall =
    | DrawIndexed(indexCount: int, startIndexLocation: int, baseVertexLocation: int)
    | Draw(vertexCount: int, startVertexLocation: int)

  /** Index position p lies in the range that draw call d reads. */
  predicate Covers(d: DrawCall, p: int) {
    d.DrawIndexed? && d.startIndexLocation <= p < d.startIndexLocation + d.indexCount
  }

  /** Everything DrawIndexed d reads exists: its index range lies inside the index list,
      and each index in it plus the base vertex names an entry of the vertex list. */
  predicate InBounds<V>(vs: seq<V>, indices: seq<int>, d: DrawCall) {
    && d.DrawIndexed?
    && 0 <= d.indexCount
    && 0 <= d.startIndexLocation
    && d.startIndexLocation + d.indexCount <= |indices|
    && forall j :: d.startIndexLocation <= j < d.startIndexLocation + d.indexCount ==>
         0 <= d.baseVertexLocation + indices[j] < |vs|
  }

  /** The vertices the input assembler fetches for DrawIndexed d, in order. */
  function Fetch<V>(vs: seq<V>, indices: seq<int>, d: DrawCall): seq<V>
    requires InBounds(vs, indices, d)
  {
    seq(d.indexCount, j requires 0 <= j < d.indexCount =>
      vs[d.baseVertexLocation + indices[d.startIndexLocation + j]])
  }

  /** Everything Draw d reads exists: its vertex range lies inside the vertex list. */
  predicate InBoundsNonIndexed<V>(vs: seq<V>, d: DrawCall) {
    d.Draw? && 0 <= d.vertexCount && 0 <= d.startVertexLocation && d.startVertexLocation + d.vertexCount <= |vs|
  }

  /** The vertices the input assembler fetches for Draw d, in order. */
  function FetchNonIndexed<V>(vs: seq<V>, d: DrawCall): seq<V>
    requires InBoundsNonIndexed(vs, d)
  {
    vs[d.startVertexLocation..d.startVertexLocation + d.vertexCount]
  }

  datatype BindFlags = BindVertexBuffer | BindIndexBuffer

  /** The part of a BufferDescription that the demos compute: the byte width and the
      binding. Usage, CPU access and option flags are the same constants everywhere. */
  datatype BufferDescription = BufferDescription(sizeInBytes: int, bindFlags: BindFlags)

  /** A device buffer as created: its description and the data stream it was filled from. */
  datatype GpuBuffer<T> = GpuBuffer(description: BufferDescription, data: seq<T>)

  /** sizeof(int) and sizeof(uint) in C#. */
  const SizeOfIndex: int := 4

  /** The list read back to front, as List.Reverse leaves it. */
  function Reversed<T>(s: seq<T>): seq<T> {
    seq(|s|, i requires 0 <= i < |s| => s[|s| - 1 - i])
  }

  /** Reversing keeps every element and its multiplicity. */
  lemma {:induction false} ReversedIsPermutation<T>(s: seq<T>)
    ensures multiset(Reversed(s)) == multiset(s)
  {
    if s != [] {
      ReversedIsPermutation(s[1..]);
      assert Reversed(s) == Reversed(s[1..]) + [s[0]];
      assert s == [s[0]] + s[1..];
    }
  }

}
