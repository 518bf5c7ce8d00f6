/** Packing several meshes into one vertex buffer and one index buffer. Each mesh
    keeps its own, local indices and is drawn with DrawIndexed(count, start, base):
    `start` is where its indices begin in the packed index list and `base` is where
    its vertices begin in the packed vertex list, both sums of the sizes of the
    sections before it. */
module Packing {
  import opened Common

  /** One section of the packed buffers: its vertices and its section-local indices. */
  datatype Section<V> = Section(vertices: seq<V>, indices: seq<int>) {
    /** Every local index names one of the section's own vertices. */
    predicate Valid() {
      IndicesBelow(indices, |vertices|)
    }
  }

  /** The lists one after the other, as repeated Add/AddRange calls leave them. */
  function Concat<T>(xs: seq<seq<T>>): seq<T> {
    if xs == [] then [] else Concat(xs[..|xs| - 1]) + xs[|xs| - 1]
  }

  /** Where list k begins in Concat(xs): the summed lengths of the lists before it. */
  function Offset<T>(xs: seq<seq<T>>, k: nat): nat
    requires k <= |xs|
  {
    |Concat(xs[..k])|
  }

  function VertexLists<V>(ss: seq<Section<V>>): seq<seq<V>> {
    seq(|ss|, k requires 0 <= k < |ss| => ss[k].vertices)
  }

  function IndexLists<V>(ss: seq<Section<V>>): seq<seq<int>> {
    seq(|ss|, k requires 0 <= k < |ss| => ss[k].indices)
  }

  /** The packed vertex list. */
  function Vertices<V>(ss: seq<Section<V>>): seq<V> {
    Concat(VertexLists(ss))
  }

  /** The packed index list. */
  function Indices<V>(ss: seq<Section<V>>): seq<int> {
    Concat(IndexLists(ss))
  }

  /** The draw call for section k: its own index count, at its index and vertex offsets. */
  function DrawOf<V>(ss: seq<Section<V>>, k: nat): DrawCall
    requires k < |ss|
  {
    DrawIndexed(|ss[k].indices|, Offset(IndexLists(ss), k), Offset(VertexLists(ss), k))
  }

  /** One draw call per section, in section order. */
  function Draws<V>(ss: seq<Section<V>>): seq<DrawCall> {
    seq(|ss|, k requires 0 <= k < |ss| => DrawOf(ss, k))
  }

  /** The vertices a section's own index list names, in order. */
  function Resolve<V>(s: Section<V>): seq<V>
    requires s.Valid()
  {
    seq(|s.indices|, j requires 0 <= j < |s.indices| => s.vertices[s.indices[j]])
  }

  lemma {:induction false} ConcatAppend<T>(a: seq<seq<T>>, b: seq<seq<T>>)
    ensures Concat(a + b) == Concat(a) + Concat(b)
  {
    if b == [] {
      assert a + b == a;
    } else {
      var n := |b|;
      assert (a + b)[..|a + b| - 1] == a + b[..n - 1];
      assert (a + b)[|a + b| - 1] == b[n - 1];
      ConcatAppend(a, b[..n - 1]);
    }
  }

  /** The offsets are running sums: each is the previous one plus the previous length. */
  lemma OffsetStep<T>(xs: seq<seq<T>>, k: nat)
    requires k < |xs|
    ensures Concat(xs[..k + 1]) == Concat(xs[..k]) + xs[k]
    ensures Offset(xs, k + 1) == Offset(xs, k) + |xs[k]|
  {
    assert xs[..k + 1][..k] == xs[..k];
  }

  lemma OffsetTotal<T>(xs: seq<seq<T>>)
    ensures Offset(xs, |xs|) == |Concat(xs)|
  {
    assert xs[..|xs|] == xs;
  }

  lemma OffsetMonotone<T>(xs: seq<seq<T>>, k: nat, m: nat)
    requires k <= m <= |xs|
    ensures Offset(xs, k) <= Offset(xs, m)
  {
    assert xs[..m] == xs[..k] + xs[k..m];
    ConcatAppend(xs[..k], xs[k..m]);
  }

  /** Entry i of list k sits at Offset(xs, k) + i of the concatenation. */
  lemma ConcatAt<T>(xs: seq<seq<T>>, k: nat, i: int)
    requires k < |xs| && 0 <= i < |xs[k]|
    ensures Offset(xs, k) + |xs[k]| <= |Concat(xs)|
    ensures Concat(xs)[Offset(xs, k) + i] == xs[k][i]
  {
    assert xs == xs[..k + 1] + xs[k + 1..];
    ConcatAppend(xs[..k + 1], xs[k + 1..]);
    OffsetStep(xs, k);
  }

  /** Five lists, as the five sections of a scene: their concatenation and the offset at
      which each begins. */
  lemma ConcatFive<T>(a: seq<T>, b: seq<T>, c: seq<T>, d: seq<T>, e: seq<T>)
    ensures Concat([a, b, c, d, e]) == a + b + c + d + e
    ensures Offset([a, b, c, d, e], 0) == 0
    ensures Offset([a, b, c, d, e], 1) == |a|
    ensures Offset([a, b, c, d, e], 2) == |a| + |b|
    ensures Offset([a, b, c, d, e], 3) == |a| + |b| + |c|
    ensures Offset([a, b, c, d, e], 4) == |a| + |b| + |c| + |d|
  {
    var xs := [a, b, c, d, e];
    assert xs[..0] == [];
    assert xs[..1] == [a] && [a][..0] == [];
    assert Concat([a]) == a;
    assert xs[..2] == [a, b] && [a, b][..1] == [a];
    assert Concat([a, b]) == a + b;
    assert xs[..3] == [a, b, c] && [a, b, c][..2] == [a, b];
    assert Concat([a, b, c]) == a + b + c;
    assert xs[..4] == [a, b, c, d] && [a, b, c, d][..3] == [a, b, c];
    assert Concat([a, b, c, d]) == a + b + c + d;
    assert xs[..4] == [a, b, c, d];
  }

  /** The position p of the concatenation falls inside one of the lists 0 .. m-1. */
  lemma {:induction false} FindList<T>(xs: seq<seq<T>>, p: int, m: nat) returns (k: nat)
    requires 0 < m <= |xs|
    requires 0 <= p < Offset(xs, m)
    ensures k < m && Offset(xs, k) <= p < Offset(xs, k) + |xs[k]|
  {
    OffsetStep(xs, m - 1);
    if Offset(xs, m - 1) <= p {
      k := m - 1;
    } else {
      k := FindList(xs, p, m - 1);
    }
  }

  /** The draw ranges are adjacent and in section order: the first starts at 0, each
      starts where the previous ends and the last ends at the packed list's end. Each
      draw's base vertex is where its section's vertices begin. */
  lemma DrawsTile<V>(ss: seq<Section<V>>)
    ensures |Draws(ss)| == |ss|
    ensures |ss| == 0 ==> Indices(ss) == []
    ensures |ss| > 0 ==> Draws(ss)[0].startIndexLocation == 0 && Draws(ss)[0].baseVertexLocation == 0
    ensures forall k :: 0 <= k < |ss| - 1 ==>
      Draws(ss)[k].startIndexLocation + Draws(ss)[k].indexCount == Draws(ss)[k + 1].startIndexLocation
    ensures forall k :: 0 <= k < |ss| - 1 ==>
      Draws(ss)[k].baseVertexLocation + |ss[k].vertices| == Draws(ss)[k + 1].baseVertexLocation
    ensures |ss| > 0 ==>
      Draws(ss)[|ss| - 1].startIndexLocation + Draws(ss)[|ss| - 1].indexCount == |Indices(ss)|
    ensures |ss| > 0 ==>
      Draws(ss)[|ss| - 1].baseVertexLocation + |ss[|ss| - 1].vertices| == |Vertices(ss)|
  {
    var ix, vx := IndexLists(ss), VertexLists(ss);
    forall k | 0 <= k < |ss| - 1
      ensures Draws(ss)[k].startIndexLocation + Draws(ss)[k].indexCount == Draws(ss)[k + 1].startIndexLocation
      ensures Draws(ss)[k].baseVertexLocation + |ss[k].vertices| == Draws(ss)[k + 1].baseVertexLocation
    {
      OffsetStep(ix, k);
      OffsetStep(vx, k);
    }
    if |ss| > 0 {
      OffsetStep(ix, |ss| - 1);
      OffsetStep(vx, |ss| - 1);
    }
    OffsetTotal(ix);
    OffsetTotal(vx);
  }

  /** Every position of the packed index list is read by exactly one draw call. */
  lemma DrawRangesPartition<V>(ss: seq<Section<V>>, p: int)
    requires 0 <= p < |Indices(ss)|
    ensures exists k :: 0 <= k < |ss| && Covers(Draws(ss)[k], p)
    ensures forall k1, k2 ::
      (0 <= k1 < |ss| && 0 <= k2 < |ss| && Covers(Draws(ss)[k1], p) && Covers(Draws(ss)[k2], p)) ==> k1 == k2
  {
    var ix := IndexLists(ss);
    OffsetTotal(ix);
    var k := FindList(ix, p, |ss|);
    assert Covers(Draws(ss)[k], p);
    forall k1, k2 | 0 <= k1 < k2 < |ss| && Covers(Draws(ss)[k1], p)
      ensures !Covers(Draws(ss)[k2], p)
    {
      OffsetStep(ix, k1);
      OffsetMonotone(ix, k1 + 1, k2);
    }
  }

  /** Index j of section k, fetched through the packed buffers and the section's draw:
      it is the section's own index j, and the vertex it names is the section's own. */
  lemma SectionEntry<V>(ss: seq<Section<V>>, k: nat, j: int)
    requires k < |ss| && ss[k].Valid() && 0 <= j < |ss[k].indices|
    ensures 0 <= DrawOf(ss, k).startIndexLocation + j < |Indices(ss)|
    ensures Indices(ss)[DrawOf(ss, k).startIndexLocation + j] == ss[k].indices[j]
    ensures 0 <= DrawOf(ss, k).baseVertexLocation + ss[k].indices[j] < |Vertices(ss)|
    ensures Vertices(ss)[DrawOf(ss, k).baseVertexLocation + ss[k].indices[j]] == ss[k].vertices[ss[k].indices[j]]
  {
    assert IndexLists(ss)[k] == ss[k].indices && VertexLists(ss)[k] == ss[k].vertices;
    ConcatAt(IndexLists(ss), k, j);
    ConcatAt(VertexLists(ss), k, ss[k].indices[j]);
  }

  /** Drawing section k of the packed buffers reads only entries that exist and fetches
      exactly the vertices that the section's own indices name in its own vertex list. */
  lemma DrawFetchesSection<V>(ss: seq<Section<V>>, k: nat)
    requires k < |ss| && ss[k].Valid()
    ensures InBounds(Vertices(ss), Indices(ss), Draws(ss)[k])
    ensures Fetch(Vertices(ss), Indices(ss), Draws(ss)[k]) == Resolve(ss[k])
  {
    var d := DrawOf(ss, k);
    assert Draws(ss)[k] == d;
    var ix := IndexLists(ss);
    OffsetStep(ix, k);
    OffsetMonotone(ix, k + 1, |ix|);
    OffsetTotal(ix);
    forall p | d.startIndexLocation <= p < d.startIndexLocation + d.indexCount
      ensures 0 <= d.baseVertexLocation + Indices(ss)[p] < |Vertices(ss)|
    {
      SectionEntry(ss, k, p - d.startIndexLocation);
    }
    forall j | 0 <= j < |ss[k].indices|
      ensures Fetch(Vertices(ss), Indices(ss), d)[j] == Resolve(ss[k])[j]
    {
      SectionEntry(ss, k, j);
    }
  }
}
