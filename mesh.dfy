/** Vocabulary shared by the hull builders: points, polygon faces given as
    lists of vertex indices, and row-major flattening of a grid of rows. */
module Mesh {

  /** A vertex position (x along the ship, y across, z up). */
  datatype Vec3 = Vec3(x: real, y: real, z: real)

  /** Reflection of a point across the centre plane y = 0. */
  function MirrorY(v: Vec3): Vec3
  {
    Vec3(v.x, -v.y, v.z)
  }

  /** A polygon face: vertex indices in winding order. */
  type Face = seq<nat>

  /** A triangle: a face of exactly three indices. */
  type Triangle = f: Face | |f| == 3 witness [0, 0, 0]

  /** Every index of f addresses one of the first n vertices. */
  predicate FaceBelow(f: Face, n: nat)
  {
    forall k :: 0 <= k < |f| ==> f[k] < n
  }

  /** Every index of f lies in [lo, hi). */
  predicate FaceWithin(f: Face, lo: nat, hi: nat)
  {
    forall k :: 0 <= k < |f| ==> lo <= f[k] < hi
  }

  /** Every face of fs addresses one of the first n vertices. */
  predicate AllFacesBelow(fs: seq<Face>, n: nat)
  {
    forall i :: 0 <= i < |fs| ==> FaceBelow(fs[i], n)
  }

  /** No vertex occurs twice in the face. */
  predicate DistinctIndices(f: Face)
  {
    forall a, b :: 0 <= a < b < |f| ==> f[a] != f[b]
  }

  /** Walking around f in winding order, vertex a is directly followed by b. */
  predicate HasEdge(f: Face, a: nat, b: nat)
  {
    exists k {:trigger f[k]} :: 0 <= k < |f| && f[k] == a && f[(k + 1) % |f|] == b
  }

  /** All rows have width w. */
  predicate Rectangular<T>(rows: seq<seq<T>>, w: nat)
  {
    forall i :: 0 <= i < |rows| ==> |rows[i]| == w
  }

  /** The rows concatenated in order (row-major order). */
  function Flatten<T>(rows: seq<seq<T>>): seq<T>
  {
    if |rows| == 0 then [] else Flatten(rows[..|rows| - 1]) + rows[|rows| - 1]
  }

  /** Appending a row to the grid appends it to the flattening. */
  lemma FlattenSnoc<T>(rows: seq<seq<T>>, row: seq<T>)
    ensures Flatten(rows + [row]) == Flatten(rows) + row
  {
    assert (rows + [row])[..|rows|] == rows;
  }

  /** Cell (i, j) of a grid with m rows of width w sits before m * w. */
  lemma RowMajorBound(i: nat, j: nat, w: nat, m: nat)
    requires i < m && j < w
    ensures i * w + j < m * w
  {
    var d: nat := m - (i + 1);
    assert (i + 1) * w == i * w + w;
    assert m * w == (i + 1) * w + d * w;
  }

  /** In a rectangular grid of width w, element (i, j) is element i * w + j
      of the flattening, and the flattening has |rows| * w elements. */
  lemma {:induction false} FlattenAt<T>(rows: seq<seq<T>>, w: nat, i: nat, j: nat)
    requires Rectangular(rows, w)
    requires i < |rows| && j < w
    ensures |Flatten(rows)| == |rows| * w
    ensures i * w + j < |Flatten(rows)|
    ensures Flatten(rows)[i * w + j] == rows[i][j]
  {
    RowMajorBound(i, j, w, |rows|);
    var m := |rows| - 1;
    var init := rows[..m];
    assert Rectangular(init, w);
    FlattenLength(init, w);
    if i < m {
      FlattenAt(init, w, i, j);
      RowMajorBound(i, j, w, m);
    }
  }

  /** A rectangular grid of width w flattens to |rows| * w elements. */
  lemma {:induction false} FlattenLength<T>(rows: seq<seq<T>>, w: nat)
    requires Rectangular(rows, w)
    ensures |Flatten(rows)| == |rows| * w
  {
    if |rows| > 0 {
      var init := rows[..|rows| - 1];
      assert Rectangular(init, w);
      FlattenLength(init, w);
    }
  }
}
