/** The triangle-soup builder of the procedural hull generator
    (generate_hull.py). A starboard grid of stations
    (rows i = 0..nx) by girth points (columns j = 0..ny) becomes a starboard
    shell of two triangles per quad, a port shell mirrored across y = 0 with
    reversed winding, and a transom closure on row i = 0; the tanker
    generator then appends a bow closure on row i = nx. The deck row is never
    capped and the centreline nodes are duplicated in the two halves, so the
    result is not a closed surface; nothing here claims it is. */
module GridMesh {
  import opened Mesh

  /** node_map[(i, j)]: the position of grid node (i, j) in the row-major
      starboard vertex block. */
  function NodeIndex(i: nat, j: nat, ny: nat): nat
  {
    i * (ny + 1) + j
  }

  /** The quad with corners p0 = (i, j), p1 = (i+1, j), p2 = (i+1, j+1),
      p3 = (i, j+1) split into [p0, p1, p2] and [p0, p2, p3]. */
  function CellTris(i: nat, j: nat, ny: nat): seq<Triangle>
  {
    var p0, p1 := NodeIndex(i, j, ny), NodeIndex(i + 1, j, ny);
    var p2, p3 := NodeIndex(i + 1, j + 1, ny), NodeIndex(i, j + 1, ny);
    [[p0, p1, p2], [p0, p2, p3]]
  }

  /** The triangles of cells (i, 0) .. (i, j - 1), in loop order. */
  function RowTris(i: nat, j: nat, ny: nat): seq<Triangle>
  {
    if j == 0 then [] else RowTris(i, j - 1, ny) + CellTris(i, j - 1, ny)
  }

  /** The starboard triangles of rows 0 .. i - 1 (each row has ny cells). */
  function StbdTris(i: nat, ny: nat): seq<Triangle>
  {
    if i == 0 then [] else StbdTris(i - 1, ny) + RowTris(i - 1, ny, ny)
  }

  /** The port copy of a triangle [a, b, c]: [a + n, c + n, b + n]. */
  function MirrorFace(f: Triangle, n: nat): Triangle
  {
    [f[0] + n, f[2] + n, f[1] + n]
  }

  /** One port triangle per original triangle, in order. */
  function MirrorFaces(fs: seq<Triangle>, n: nat): seq<Triangle>
  {
    seq(|fs|, k requires 0 <= k < |fs| => MirrorFace(fs[k], n))
  }

  /** One port vertex (x, -y, z) per starboard vertex, in order. */
  function MirrorVerts(vs: seq<Vec3>): seq<Vec3>
  {
    seq(|vs|, k requires 0 <= k < |vs| => MirrorY(vs[k]))
  }

  /** The transom closure for j = 0 .. count - 1 on row i = 0, with
      s = node (0, j), (0, j+1) and p = s + n: [s1, s0, p0], [s1, p0, p1]. */
  function TransomTris(count: nat, ny: nat, n: nat): seq<Triangle>
  {
    seq(2 * count, k requires 0 <= k < 2 * count =>
      var s0, s1 := NodeIndex(0, k / 2, ny), NodeIndex(0, k / 2 + 1, ny);
      if k % 2 == 0 then [s1, s0, s0 + n] else [s1, s0 + n, s1 + n])
  }

  /** Triangles 2j and 2j + 1 of the transom closure. */
  lemma TransomTrisAt(count: nat, ny: nat, n: nat, j: nat)
    requires j < count
    ensures |TransomTris(count, ny, n)| == 2 * count
    ensures var s0, s1 := NodeIndex(0, j, ny), NodeIndex(0, j + 1, ny);
      && TransomTris(count, ny, n)[2 * j] == [s1, s0, s0 + n]
      && TransomTris(count, ny, n)[2 * j + 1] == [s1, s0 + n, s1 + n]
  {
    assert (2 * j) / 2 == j && (2 * j) % 2 == 0;
    assert (2 * j + 1) / 2 == j && (2 * j + 1) % 2 == 1;
  }

  /** One more girth step appends its two triangles to the transom closure. */
  lemma TransomTrisSnoc(j: nat, ny: nat, n: nat)
    ensures var s0, s1 := NodeIndex(0, j, ny), NodeIndex(0, j + 1, ny);
      TransomTris(j + 1, ny, n) == TransomTris(j, ny, n) + [[s1, s0, s0 + n], [s1, s0 + n, s1 + n]]
  {
    TransomTrisAt(j + 1, ny, n, j);
    var longer, shorter := TransomTris(j + 1, ny, n), TransomTris(j, ny, n);
    assert forall k :: 0 <= k < 2 * j ==> longer[k] == shorter[k];
  }

  /** The bow closure for j = 0 .. count - 1 on row i = nx, with
      s = node (nx, j), (nx, j+1) and p = s + n: [s0, p0, p1], [s0, p1, s1]. */
  function BowTris(count: nat, nx: nat, ny: nat, n: nat): seq<Triangle>
  {
    seq(2 * count, k requires 0 <= k < 2 * count =>
      var s0, s1 := NodeIndex(nx, k / 2, ny), NodeIndex(nx, k / 2 + 1, ny);
      if k % 2 == 0 then [s0, s0 + n, s1 + n] else [s0, s1 + n, s1])
  }

  /** A triangle with three distinct indices, all in [lo, hi). */
  predicate GoodTri(f: Face, lo: nat, hi: nat)
  {
    |f| == 3 && DistinctIndices(f) && FaceWithin(f, lo, hi)
  }

  /** By the node numbering, each cell's triangles are sound for a grid of
      (nx + 1) * (ny + 1) nodes. */
  lemma CellTrisGood(i: nat, j: nat, nx: nat, ny: nat)
    requires i < nx && j < ny
    ensures forall f :: f in CellTris(i, j, ny) ==> GoodTri(f, 0, (nx + 1) * (ny + 1))
  {
    RowMajorBound(i + 1, j + 1, ny + 1, nx + 1);
    assert NodeIndex(i + 1, j, ny) == NodeIndex(i, j, ny) + ny + 1;
  }

  /** Row i of the starboard shell holds 2 * j triangles after j cells. */
  lemma {:induction false} RowTrisLength(i: nat, j: nat, ny: nat)
    ensures |RowTris(i, j, ny)| == 2 * j
  {
    if j > 0 {
      RowTrisLength(i, j - 1, ny);
    }
  }

  /** Within row i, the pair of cell (i, c) sits at positions 2c and 2c + 1. */
  lemma {:induction false} RowTrisAt(i: nat, j: nat, ny: nat, c: nat, t: nat)
    requires c < j && t < 2
    ensures 2 * c + t < |RowTris(i, j, ny)|
    ensures RowTris(i, j, ny)[2 * c + t] == CellTris(i, c, ny)[t]
  {
    RowTrisLength(i, j - 1, ny);
    if c < j - 1 {
      RowTrisAt(i, j - 1, ny, c, t);
    }
  }

  /** The starboard shell of nx rows has exactly 2 * nx * ny triangles. */
  lemma {:induction false} StbdTrisLength(nx: nat, ny: nat)
    ensures |StbdTris(nx, ny)| == 2 * (nx * ny)
  {
    if nx > 0 {
      StbdTrisLength(nx - 1, ny);
      RowTrisLength(nx - 1, ny, ny);
      assert nx * ny == (nx - 1) * ny + ny;
    }
  }

  /** The pair of cell (i, j) sits at positions 2 * (i * ny + j) and one
      after: rows first, then cells along the girth, as the loops run. */
  lemma {:induction false} StbdTrisAt(nx: nat, ny: nat, i: nat, j: nat, t: nat)
    requires i < nx && j < ny && t < 2
    ensures 2 * (i * ny + j) + t < |StbdTris(nx, ny)|
    ensures StbdTris(nx, ny)[2 * (i * ny + j) + t] == CellTris(i, j, ny)[t]
  {
    var m := nx - 1;
    var prev, row := StbdTris(m, ny), RowTris(m, ny, ny);
    assert StbdTris(nx, ny) == prev + row;
    StbdTrisLength(m, ny);
    RowTrisLength(m, ny, ny);
    if i < m {
      StbdTrisAt(m, ny, i, j, t);
    } else {
      RowTrisAt(m, ny, ny, j, t);
      assert 2 * (i * ny + j) + t == |prev| + (2 * j + t) by { assert i * ny == m * ny; }
    }
  }

  /** Every starboard triangle of rows 0 .. i - 1 is sound and uses only the
      starboard block [0, (nx + 1) * (ny + 1)). */
  lemma {:induction false} StbdTrisGood(i: nat, nx: nat, ny: nat)
    requires i <= nx
    ensures forall f :: f in StbdTris(i, ny) ==> GoodTri(f, 0, (nx + 1) * (ny + 1))
  {
    if i > 0 {
      StbdTrisGood(i - 1, nx, ny);
      RowTrisGood(i - 1, ny, nx, ny);
    }
  }

  lemma {:induction false} RowTrisGood(i: nat, j: nat, nx: nat, ny: nat)
    requires i < nx && j <= ny
    ensures forall f :: f in RowTris(i, j, ny) ==> GoodTri(f, 0, (nx + 1) * (ny + 1))
  {
    if j > 0 {
      RowTrisGood(i, j - 1, nx, ny);
      CellTrisGood(i, j - 1, nx, ny);
    }
  }

  /** Mirroring moves a sound starboard triangle into the port block [n, 2n). */
  lemma MirrorFacesGood(fs: seq<Triangle>, n: nat)
    requires forall f :: f in fs ==> GoodTri(f, 0, n)
    ensures forall g :: g in MirrorFaces(fs, n) ==> GoodTri(g, n, 2 * n)
  {
    forall g | g in MirrorFaces(fs, n) ensures GoodTri(g, n, 2 * n) {
      var k :| 0 <= k < |fs| && MirrorFaces(fs, n)[k] == g;
      assert fs[k] in fs;
    }
  }

  /** Every transom triangle of a grid of n >= ny + 1 nodes has three
      distinct indices below 2n. */
  lemma TransomTrisGood(ny: nat, n: nat)
    requires ny + 1 <= n
    ensures forall f :: f in TransomTris(ny, ny, n) ==> GoodTri(f, 0, 2 * n)
  {
  }

  /** Every bow triangle on row nx of a grid of n = (nx + 1) * (ny + 1) nodes
      has three distinct indices below 2n. */
  lemma BowTrisGood(nx: nat, ny: nat, n: nat)
    requires n == (nx + 1) * (ny + 1)
    ensures forall f :: f in BowTris(ny, nx, ny, n) ==> GoodTri(f, 0, 2 * n)
  {
    forall k | 0 <= k < 2 * ny ensures GoodTri(BowTris(ny, nx, ny, n)[k], 0, 2 * n) {
      RowMajorBound(nx, k / 2 + 1, ny + 1, nx + 1);
    }
  }

  /** The two triangles of a cell run along their shared diagonal p0-p2 in
      opposite directions: the first from p2 to p0, the second from p0 to p2. */
  lemma CellDiagonalOpposite(i: nat, j: nat, ny: nat)
    ensures HasEdge(CellTris(i, j, ny)[0], NodeIndex(i + 1, j + 1, ny), NodeIndex(i, j, ny))
    ensures HasEdge(CellTris(i, j, ny)[1], NodeIndex(i, j, ny), NodeIndex(i + 1, j + 1, ny))
  {
    var t := CellTris(i, j, ny);
    assert t[0][2] == NodeIndex(i + 1, j + 1, ny) && t[0][(2 + 1) % 3] == NodeIndex(i, j, ny);
    assert t[1][0] == NodeIndex(i, j, ny) && t[1][(0 + 1) % 3] == NodeIndex(i + 1, j + 1, ny);
  }

  /** The directed edges of a triangle are f0->f1, f1->f2 and f2->f0. */
  lemma TriangleEdges(f: Triangle, a: nat, b: nat)
    ensures HasEdge(f, a, b) <==>
      (f[0] == a && f[1] == b) || (f[1] == a && f[2] == b) || (f[2] == a && f[0] == b)
  {
    if f[0] == a && f[1] == b {
      assert f[0] == a && f[(0 + 1) % 3] == b;
    } else if f[1] == a && f[2] == b {
      assert f[1] == a && f[(1 + 1) % 3] == b;
    } else if f[2] == a && f[0] == b {
      assert f[2] == a && f[(2 + 1) % 3] == b;
    }
  }

  /** Mirroring reverses the winding: a runs directly into b in a triangle
      exactly when b + n runs directly into a + n in its port copy. */
  lemma MirrorReversesEdges(f: Triangle, n: nat, a: nat, b: nat)
    ensures HasEdge(f, a, b) <==> HasEdge(MirrorFace(f, n), b + n, a + n)
  {
    TriangleEdges(f, a, b);
    TriangleEdges(MirrorFace(f, n), b + n, a + n);
  }

  /** node_map numbers every node (a, b) of an (nx + 1) x (ny + 1) grid by
      its row-major position. */
  predicate NumbersNodes(nodeMap: map<(nat, nat), nat>, nx: nat, ny: nat)
  {
    forall a: nat, b: nat :: a <= nx && b <= ny ==>
      (a, b) in nodeMap && nodeMap[(a, b)] == NodeIndex(a, b, ny)
  }

  /** The number of starboard nodes of a grid with rows 0..nx and columns 0..ny. */
  function NodeCount(nx: nat, ny: nat): nat
  {
    (nx + 1) * (ny + 1)
  }

  /** The vertex list grid_to_mesh returns: the starboard nodes in row-major
      order followed by their mirror images. */
  function GridVerts(grid: seq<seq<Vec3>>): seq<Vec3>
  {
    Flatten(grid) + MirrorVerts(Flatten(grid))
  }

  /** The face list grid_to_mesh returns for a grid with rows 0..nx and
      columns 0..ny: starboard shell, port shell, transom. */
  function GridFaces(nx: nat, ny: nat): seq<Triangle>
  {
    var n := NodeCount(nx, ny);
    StbdTris(nx, ny) + MirrorFaces(StbdTris(nx, ny), n) + TransomTris(ny, ny, n)
  }

  /** Vertex layout: node (i, j) of the grid is vertex i * (ny + 1) + j, its
      port twin is n places later, and there are 2n vertices. */
  lemma GridVertsLayout(grid: seq<seq<Vec3>>)
    requires |grid| >= 1 && |grid[0]| >= 1 && Rectangular(grid, |grid[0]|)
    ensures var nx, ny := |grid| - 1, |grid[0]| - 1;
      var n, vs := NodeCount(nx, ny), GridVerts(grid);
      && |vs| == 2 * n
      && (forall i, j :: 0 <= i <= nx && 0 <= j <= ny ==> vs[NodeIndex(i, j, ny)] == grid[i][j])
      && (forall k :: 0 <= k < n ==> vs[k + n] == MirrorY(vs[k]))
  {
    var nx, ny := |grid| - 1, |grid[0]| - 1;
    var n, fl := NodeCount(nx, ny), Flatten(grid);
    FlattenLength(grid, ny + 1);
    assert |fl| == n;
    var vs := GridVerts(grid);
    assert vs == fl + MirrorVerts(fl);
    forall i, j | 0 <= i <= nx && 0 <= j <= ny
      ensures NodeIndex(i, j, ny) < n && vs[NodeIndex(i, j, ny)] == grid[i][j]
    {
      FlattenAt(grid, ny + 1, i, j);
      var k := NodeIndex(i, j, ny);
      assert k < |fl|;
      assert vs[k] == fl[k];
    }
    forall k | 0 <= k < n
      ensures vs[k + n] == MirrorY(vs[k])
    {
      assert vs[k] == fl[k];
      assert vs[k + n] == MirrorVerts(fl)[k];
    }
  }
  /** GridVertsLayout for a grid of known size: node (i, j) is vertex
      i * (ny + 1) + j, and the last n vertices mirror the first n. */
  lemma GridVertsMirror(grid: seq<seq<Vec3>>, nx: nat, ny: nat)
    requires |grid| == nx + 1 && Rectangular(grid, ny + 1)
    ensures |GridVerts(grid)| == 2 * NodeCount(nx, ny)
    ensures GridVerts(grid)[NodeCount(nx, ny)..] == MirrorVerts(GridVerts(grid)[..NodeCount(nx, ny)])
  {
    assert |grid[0]| == ny + 1;
    GridVertsLayout(grid);
    FlattenLength(grid, ny + 1);
    var fl := Flatten(grid);
    assert GridVerts(grid)[..|fl|] == fl;
    assert GridVerts(grid)[|fl|..] == MirrorVerts(fl);
  }


  /** Every face of the finished grid mesh (starboard shell, port shell,
      transom) is a triangle of three distinct indices into the 2n vertices,
      and there are 4 nx ny + 2 ny of them; the starboard faces use only
      [0, n) and the port faces only [n, 2n), so the halves share no vertex. */
  lemma GridFacesShape(nx: nat, ny: nat)
    ensures var n := NodeCount(nx, ny);
      && |GridFaces(nx, ny)| == 4 * (nx * ny) + 2 * ny
      && (forall f :: f in StbdTris(nx, ny) ==> GoodTri(f, 0, n))
      && (forall f :: f in MirrorFaces(StbdTris(nx, ny), n) ==> GoodTri(f, n, 2 * n))
      && (forall f :: f in GridFaces(nx, ny) ==> GoodTri(f, 0, 2 * n))
  {
    var n := NodeCount(nx, ny);
    StbdTrisLength(nx, ny);
    StbdTrisGood(nx, nx, ny);
    MirrorFacesGood(StbdTris(nx, ny), n);
    assert n == nx * (ny + 1) + ny + 1;
    TransomTrisGood(ny, n);
  }

  /** Lines 335-341 of grid_to_mesh: append the starboard nodes row by row,
      recording each node's running index in node_map. */
  method NumberStarboard(grid: seq<seq<Vec3>>) returns (verts: seq<Vec3>, nodeMap: map<(nat, nat), nat>)
    requires |grid| >= 1 && |grid[0]| >= 1 && Rectangular(grid, |grid[0]|)
    ensures verts == Flatten(grid)
    ensures NumbersNodes(nodeMap, |grid| - 1, |grid[0]| - 1)
  {
    verts, nodeMap := [], map[];
    var idx: nat := 0;
    var nx, ny := |grid| - 1, |grid[0]| - 1;
    for i := 0 to nx + 1
      invariant verts == Flatten(grid[..i])
      invariant idx == |verts| == i * (ny + 1)
      invariant forall a: nat, b: nat :: a < i && b <= ny ==>
        (a, b) in nodeMap && nodeMap[(a, b)] == NodeIndex(a, b, ny)
    {
      for j := 0 to ny + 1
        invariant verts == Flatten(grid[..i]) + grid[i][..j]
        invariant idx == |verts| == i * (ny + 1) + j
        invariant forall a: nat, b: nat :: (a < i && b <= ny) || (a == i && b < j) ==>
          (a, b) in nodeMap && nodeMap[(a, b)] == NodeIndex(a, b, ny)
      {
        verts := verts + [grid[i][j]];
        nodeMap := nodeMap[(i, j) := idx];
        idx := idx + 1;
      }
      assert grid[i][..ny + 1] == grid[i];
      assert grid[..i + 1] == grid[..i] + [grid[i]];
      FlattenSnoc(grid[..i], grid[i]);
    }
    assert grid[..nx + 1] == grid;
  }

  /** Lines 343-353 of grid_to_mesh: two triangles per starboard quad, rows
      outermost. */
  method TriangulateStarboard(nodeMap: map<(nat, nat), nat>, nx: nat, ny: nat) returns (faces: seq<Triangle>)
    requires NumbersNodes(nodeMap, nx, ny)
    ensures faces == StbdTris(nx, ny)
  {
    faces := [];
    for i := 0 to nx
      invariant faces == StbdTris(i, ny)
    {
      for j := 0 to ny
        invariant faces == StbdTris(i, ny) + RowTris(i, j, ny)
      {
        var p0, p1 := nodeMap[(i, j)], nodeMap[(i + 1, j)];
        var p2, p3 := nodeMap[(i + 1, j + 1)], nodeMap[(i, j + 1)];
        faces := faces + [[p0, p1, p2], [p0, p2, p3]];
      }
    }
  }

  /** Lines 355-362 of grid_to_mesh: append (x, -y, z) for every starboard
      vertex, then one reversed-winding copy of every face of a snapshot of the
      face list, so no port face is mirrored again. */
  method MirrorPort(stbd: seq<Vec3>, shell: seq<Triangle>) returns (verts: seq<Vec3>, faces: seq<Triangle>)
    ensures verts == stbd + MirrorVerts(stbd)
    ensures faces == shell + MirrorFaces(shell, |stbd|)
  {
    verts := stbd;
    var nStbd := |verts|;
    for k := 0 to nStbd
      invariant verts == stbd + MirrorVerts(stbd[..k])
    {
      var v := stbd[k];
      verts := verts + [Vec3(v.x, -v.y, v.z)];
      assert MirrorVerts(stbd[..k + 1]) == MirrorVerts(stbd[..k]) + [MirrorY(stbd[k])];
    }
    assert stbd[..nStbd] == stbd;
    faces := shell;
    var orig := faces[..|faces|];
    for k := 0 to |orig|
      invariant faces == orig + MirrorFaces(orig[..k], nStbd)
    {
      var f := orig[k];
      faces := faces + [[f[0] + nStbd, f[2] + nStbd, f[1] + nStbd]];
      assert MirrorFaces(orig[..k + 1], nStbd) == MirrorFaces(orig[..k], nStbd) + [MirrorFace(f, nStbd)];
    }
    assert orig[..|orig|] == orig;
  }

  /** Lines 377-389 of grid_to_mesh: stitch starboard row i = 0 to its port
      copy, two triangles per girth step. */
  method CloseTransom(shells: seq<Triangle>, nodeMap: map<(nat, nat), nat>, ny: nat, nStbd: nat)
    returns (faces: seq<Triangle>)
    requires NumbersNodes(nodeMap, 0, ny)
    ensures faces == shells + TransomTris(ny, ny, nStbd)
  {
    faces := shells;
    for j := 0 to ny
      invariant faces == shells + TransomTris(j, ny, nStbd)
    {
      var s0, s1 := nodeMap[(0, j)], nodeMap[(0, j + 1)];
      var p0, p1 := s0 + nStbd, s1 + nStbd;
      faces := faces + [[s1, s0, p0], [s1, p0, p1]];
      TransomTrisSnoc(j, ny, nStbd);
    }
  }

  /** grid_to_mesh (generate_hull.py): the starboard block in row-major order,
      its mirror image, two triangles per quad, their reversed-winding port
      copies and the transom closure. */
  method GridToMesh(grid: seq<seq<Vec3>>) returns (verts: seq<Vec3>, faces: seq<Face>)
    requires |grid| >= 1 && |grid[0]| >= 1 && Rectangular(grid, |grid[0]|)
    ensures verts == GridVerts(grid)
    ensures faces == GridFaces(|grid| - 1, |grid[0]| - 1)
  {
    var nx, ny := |grid| - 1, |grid[0]| - 1;
    var stbd, nodeMap := NumberStarboard(grid);
    var shell := TriangulateStarboard(nodeMap, nx, ny);
    var both;
    verts, both := MirrorPort(stbd, shell);
    FlattenLength(grid, ny + 1);
    var closed := CloseTransom(both, nodeMap, ny, |stbd|);
    faces := closed;
  }

  /** The bow cap of generate_kvlcc2_improved (lines 310-322): for each girth
      step on the last station row nx, append [s0, p0, p1] and [s0, p1, s1]. */
  method CapBow(shell: seq<Face>, nx: nat, ny: nat) returns (faces: seq<Face>)
    ensures faces == shell + BowTris(ny, nx, ny, NodeCount(nx, ny))
  {
    faces := shell;
    var bowStbdStart := nx * (ny + 1);
    var nTotalHalf := (nx + 1) * (ny + 1);
    for j := 0 to ny
      invariant faces == shell + BowTris(j, nx, ny, nTotalHalf)
    {
      var s0, s1 := bowStbdStart + j, bowStbdStart + j + 1;
      var p0, p1 := s0 + nTotalHalf, s1 + nTotalHalf;
      faces := faces + [[s0, p0, p1], [s0, p1, s1]];
      assert BowTris(j + 1, nx, ny, nTotalHalf) == BowTris(j, nx, ny, nTotalHalf) + [[s0, p0, p1], [s0, p1, s1]];
    }
  }

  /** Stations and girth steps of the tanker grid. */
  const TankerNx: nat := 100
  const TankerNy: nat := 40

  /** The tanker mesh: grid_to_mesh of its 101 x 41 grid, then the bow cap. */
  method TankerMesh(grid: seq<seq<Vec3>>) returns (verts: seq<Vec3>, faces: seq<Face>)
    requires |grid| == TankerNx + 1 && Rectangular(grid, TankerNy + 1)
    ensures verts == GridVerts(grid)
    ensures faces == GridFaces(TankerNx, TankerNy) + BowTris(TankerNy, TankerNx, TankerNy, NodeCount(TankerNx, TankerNy))
  {
    var shell;
    verts, shell := GridToMesh(grid);
    faces := CapBow(shell, TankerNx, TankerNy);
  }

  /** The capped tanker mesh has 4 nx ny + 4 ny triangles, each with three
      distinct indices into the 2n vertices. */
  lemma TankerFacesShape(nx: nat, ny: nat)
    ensures var n := NodeCount(nx, ny);
      var fs := GridFaces(nx, ny) + BowTris(ny, nx, ny, n);
      && |fs| == 4 * (nx * ny) + 4 * ny
      && (forall f :: f in fs ==> GoodTri(f, 0, 2 * n))
  {
    GridFacesShape(nx, ny);
    BowTrisGood(nx, ny, NodeCount(nx, ny));
  }

  /** The bow cap is wound consistently with the shell it closes: the hull
      triangle [p0, p1, p2] of cell (nx - 1, j) runs s0 -> s1 along the last
      row, and the bow triangle [s0, p1, s1] runs s1 -> s0 over the same edge. */
  lemma BowMatchesHull(nx: nat, ny: nat, j: nat)
    requires 1 <= nx && j < ny
    ensures var s0, s1 := NodeIndex(nx, j, ny), NodeIndex(nx, j + 1, ny);
      && HasEdge(CellTris(nx - 1, j, ny)[0], s0, s1)
      && HasEdge(BowTris(ny, nx, ny, NodeCount(nx, ny))[2 * j + 1], s1, s0)
  {
    var s0, s1 := NodeIndex(nx, j, ny), NodeIndex(nx, j + 1, ny);
    var h := CellTris(nx - 1, j, ny)[0];
    var b := BowTris(ny, nx, ny, NodeCount(nx, ny))[2 * j + 1];
    assert (2 * j + 1) / 2 == j && (2 * j + 1) % 2 == 1;
    assert nx - 1 + 1 == nx;
    TriangleEdges(h, s0, s1);
    TriangleEdges(b, s1, s0);
  }

  /** As written, the transom closure is wound against the shell it closes:
      the hull triangle [p0, p2, p3] of cell (0, j) runs s1 -> s0 along row 0,
      and the transom triangle [s1, s0, p0] runs the same edge the same way;
      likewise the port copy of that hull triangle and the transom triangle
      [s1, p0, p1] both run p0 -> p1. */
  lemma TransomWindingClash(nx: nat, ny: nat, j: nat)
    requires j < ny
    ensures var n := NodeCount(nx, ny);
      var s0, s1 := NodeIndex(0, j, ny), NodeIndex(0, j + 1, ny);
      && HasEdge(CellTris(0, j, ny)[1], s1, s0)
      && HasEdge(TransomTris(ny, ny, n)[2 * j], s1, s0)
      && HasEdge(MirrorFace(CellTris(0, j, ny)[1], n), s0 + n, s1 + n)
      && HasEdge(TransomTris(ny, ny, n)[2 * j + 1], s0 + n, s1 + n)
  {
    var n := NodeCount(nx, ny);
    var s0, s1 := NodeIndex(0, j, ny), NodeIndex(0, j + 1, ny);
    var h := CellTris(0, j, ny)[1];
    TransomTrisAt(ny, ny, n, j);
    TriangleEdges(h, s1, s0);
    TriangleEdges(TransomTris(ny, ny, n)[2 * j], s1, s0);
    TriangleEdges(MirrorFace(h, n), s0 + n, s1 + n);
    TriangleEdges(TransomTris(ny, ny, n)[2 * j + 1], s0 + n, s1 + n);
  }

  /** The transom closure with the winding of the shell: each of the two
      triangles of TransomTris reversed, [p0, s0, s1] and [p1, p0, s1]. */
  function OrientedTransomTris(count: nat, ny: nat, n: nat): seq<Triangle>
  {
    seq(2 * count, k requires 0 <= k < 2 * count =>
      var s0, s1 := NodeIndex(0, k / 2, ny), NodeIndex(0, k / 2 + 1, ny);
      if k % 2 == 0 then [s0 + n, s0, s1] else [s1 + n, s0 + n, s1])
  }

  /** The oriented transom runs every row-0 edge opposite to the starboard
      hull (s0 -> s1 against s1 -> s0) and to the port hull (p1 -> p0 against
      p0 -> p1), its two triangles run their shared diagonal in opposite
      directions. */
  lemma OrientedTransomMatchesHull(nx: nat, ny: nat, j: nat)
    requires j < ny
    ensures var n := NodeCount(nx, ny);
      var s0, s1 := NodeIndex(0, j, ny), NodeIndex(0, j + 1, ny);
      var t := OrientedTransomTris(ny, ny, n);
      && HasEdge(CellTris(0, j, ny)[1], s1, s0) && HasEdge(t[2 * j], s0, s1)
      && HasEdge(MirrorFace(CellTris(0, j, ny)[1], n), s0 + n, s1 + n) && HasEdge(t[2 * j + 1], s1 + n, s0 + n)
      && HasEdge(t[2 * j], s1, s0 + n) && HasEdge(t[2 * j + 1], s0 + n, s1)
  {
    var n := NodeCount(nx, ny);
    var s0, s1 := NodeIndex(0, j, ny), NodeIndex(0, j + 1, ny);
    var h := CellTris(0, j, ny)[1];
    var t := OrientedTransomTris(ny, ny, n);
    assert (2 * j) / 2 == j && (2 * j + 1) / 2 == j;
    var a, b, m := t[2 * j], t[2 * j + 1], MirrorFace(h, n);
    assert h[2] == s1 && h[(2 + 1) % 3] == s0;
    assert a[1] == s0 && a[(1 + 1) % 3] == s1;
    assert a[2] == s1 && a[(2 + 1) % 3] == s0 + n;
    assert m[0] == s0 + n && m[(0 + 1) % 3] == s1 + n;
    assert b[0] == s1 + n && b[(0 + 1) % 3] == s0 + n;
    assert b[1] == s0 + n && b[(1 + 1) % 3] == s1;
  }

  /** Every oriented transom triangle of a grid of n >= ny + 1 nodes has
      three distinct indices below 2n. */
  lemma OrientedTransomTrisGood(ny: nat, n: nat)
    requires ny + 1 <= n
    ensures forall f :: f in OrientedTransomTris(ny, ny, n) ==> GoodTri(f, 0, 2 * n)
  {
  }

  /** The grid mesh with the transom wound like the shell: the two shells of
      grid_to_mesh unchanged, followed by the oriented transom. */
  function OrientedGridFaces(nx: nat, ny: nat): seq<Triangle>
  {
    var n := NodeCount(nx, ny);
    StbdTris(nx, ny) + MirrorFaces(StbdTris(nx, ny), n) + OrientedTransomTris(ny, ny, n)
  }

  /** The corrected mesh has the same size and index discipline as the one
      grid_to_mesh builds and agrees with it on both shells; only the 2 ny
      transom triangles differ, each one reversed. */
  lemma OrientedGridFacesShape(nx: nat, ny: nat)
    ensures var n, m := NodeCount(nx, ny), 4 * (nx * ny);
      var fs, gs := OrientedGridFaces(nx, ny), GridFaces(nx, ny);
      && |fs| == |gs| == m + 2 * ny
      && fs[..m] == gs[..m]
      && (forall f :: f in fs ==> GoodTri(f, 0, 2 * n))
      && (forall k :: m <= k < |fs| ==> fs[k] == [gs[k][2], gs[k][1], gs[k][0]])
  {
    var n, m := NodeCount(nx, ny), 4 * (nx * ny);
    var shells := StbdTris(nx, ny) + MirrorFaces(StbdTris(nx, ny), n);
    var fs, gs := OrientedGridFaces(nx, ny), GridFaces(nx, ny);
    GridFacesShape(nx, ny);
    StbdTrisLength(nx, ny);
    assert |shells| == m;
    assert fs == shells + OrientedTransomTris(ny, ny, n);
    assert gs == shells + TransomTris(ny, ny, n);
    assert fs[..m] == shells == gs[..m];
    assert n == nx * (ny + 1) + ny + 1;
    OrientedTransomTrisGood(ny, n);
    forall k | m <= k < |fs|
      ensures fs[k] == [gs[k][2], gs[k][1], gs[k][0]]
    {
      var j := (k - m) / 2;
      TransomTrisAt(ny, ny, n, j);
      assert fs[k] == OrientedTransomTris(ny, ny, n)[k - m];
      assert gs[k] == TransomTris(ny, ny, n)[k - m];
      assert k - m == 2 * j || k - m == 2 * j + 1;
    }
  }
}
