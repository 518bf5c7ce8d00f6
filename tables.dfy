/** Checks for the hand-written vertex and index tables of the small demos: index
    bounds, whole non-degenerate triangles, and which vertices a group of indices uses. */
module Tables {
  import opened Common

  /** The three indices of triangle t of a triangle list. */
  function Triangle(indices: seq<int>, t: nat): seq<int>
    requires 3 * t + 3 <= |indices|
  {
    indices[3 * t..3 * t + 3]
  }

  /** The three corners of a triangle are three different vertices. */
  predicate Distinct3(tri: seq<int>)
    requires |tri| == 3
  {
    tri[0] != tri[1] && tri[1] != tri[2] && tri[0] != tri[2]
  }

  predicate AllDistinct3(indices: seq<int>) {
    forall t :: 0 <= t < |indices| / 3 ==> Distinct3(Triangle(indices, t))
  }

  /** Triangle t + 1 of a list is triangle t of the list without its first triangle. */
  lemma AllDistinct3Tail(indices: seq<int>)
    requires |indices| >= 3
    ensures AllDistinct3(indices) <==> Distinct3(indices[..3]) && AllDistinct3(indices[3..])
  {
    var rest := indices[3..];
    assert |rest| / 3 == |indices| / 3 - 1;
    assert Triangle(indices, 0) == indices[..3];
    forall t | 0 <= t < |rest| / 3
      ensures Triangle(rest, t) == Triangle(indices, t + 1)
    {
    }
    if Distinct3(indices[..3]) && AllDistinct3(rest) {
      forall t | 0 <= t < |indices| / 3
        ensures Distinct3(Triangle(indices, t))
      {
        if t > 0 {
          assert Triangle(rest, t - 1) == Triangle(indices, t);
        }
      }
    }
  }

  /** The list splits into whole triangles and none of them repeats a vertex. */
  function ProperTriangles(indices: seq<int>): (ok: bool)
    ensures ok <==> |indices| % 3 == 0 && AllDistinct3(indices)
  {
    if |indices| < 3 then indices == []
    else
      AllDistinct3Tail(indices);
      Distinct3(indices[..3]) && ProperTriangles(indices[3..])
  }

  /** The vertices a group of indices uses. */
  function Elems(s: seq<int>): set<int> {
    set v | v in s
  }

  /** How often vertex v occurs in a group of indices. */
  function Occurrences(s: seq<int>, v: int): nat {
    multiset(s)[v]
  }

  datatype Axis = X | Y | Z

  function Coord(p: Point3, a: Axis): int {
    match a
    case X => p.x
    case Y => p.y
    case Z => p.z
  }

  /** Every vertex the group uses exists and has coordinate `value` along `axis`. */
  predicate OnPlane(vertices: seq<VertexPC<Point3>>, group: seq<int>, axis: Axis, value: int) {
    forall j :: 0 <= j < |group| ==>
      0 <= group[j] < |vertices| && Coord(vertices[group[j]].position, axis) == value
  }

  /** A face drawn as a group of indices: it uses exactly four distinct vertices, and they
      are exactly the table's vertices whose coordinate along `axis` is `value`. */
  predicate QuadOnPlane(vertices: seq<VertexPC<Point3>>, group: seq<int>, axis: Axis, value: int) {
    && |Elems(group)| == 4
    && OnPlane(vertices, group, axis, value)
    && forall i :: 0 <= i < |vertices| ==>
         (i in Elems(group) <==> Coord(vertices[i].position, axis) == value)
  }
}
