/** The Wigley hull of task_create_wigley (blender_operations.py): the
    half-breadth y = (B/2)(1 - (2x/L)^2)(1 - (z/T)^2) below the waterline and
    (B/2)(1 - (2x/L)^2) above it, sampled on stations i = 0..nx and levels
    j = 0..nz for the port side and, negated, for the starboard side; one quad
    per cell on each side and one deck quad per station interval. The vertex
    and face lists are modelled up to the point where they are handed to
    Blender. */
module Wigley {
  import opened Mesh
  import opened RealArith

  const Length: real := 100.0
  const Beam: real := 10.0
  const Draft: real := 6.25
  const Freeboard: real := Draft * 0.2
  const Nx: nat := 50
  const Nz: nat := 20

  /** The threshold below which a starboard offset is snapped to 0. */
  const SnapEps: real := 0.000001

  /** x of station i: -L/2 + L i / nx. */
  function StationX(i: nat): real
  {
    -Length / 2.0 + (Length * i as real / Nx as real)
  }

  /** z of level j: -T + (T + D_freeboard) j / nz. */
  function LevelZ(j: nat): real
  {
    -Draft + ((Draft + Freeboard) * j as real / Nz as real)
  }

  /** The Wigley half-breadth formula, before any clamping. */
  function WigleyOffset(x: real, z: real): real
  {
    var waterline := (Beam / 2.0) * (1.0 - (2.0 * x / Length) * (2.0 * x / Length));
    if z < 0.0 then waterline * (1.0 - (z / Draft) * (z / Draft)) else waterline
  }

  /** Port offset: the formula, clamped below at 0. */
  function PortY(x: real, z: real): real
  {
    var y := WigleyOffset(x, z);
    if y < 0.0 then 0.0 else y
  }

  /** Starboard offset: the negated formula, snapped to 0 when within 1e-6 of it. */
  function StbdY(x: real, z: real): real
  {
    var y := -WigleyOffset(x, z);
    if Abs(y) < SnapEps then 0.0 else y
  }

  /** The offset of one side at (x, z): PortY or StbdY. */
  function SideY(port: bool, x: real, z: real): real
  {
    if port then PortY(x, z) else StbdY(x, z)
  }

  /** The vertices of one side, one row per station. */
  function SideRows(port: bool): seq<seq<Vec3>>
  {
    seq(Nx + 1, i requires 0 <= i <= Nx =>
      seq(Nz + 1, j requires 0 <= j <= Nz =>
        Vec3(StationX(i), SideY(port, StationX(i), LevelZ(j)), LevelZ(j))))
  }

  /** full_verts: the port block, then the starboard block, both row-major. */
  function WigleyVerts(): seq<Vec3>
  {
    Flatten(SideRows(true)) + Flatten(SideRows(false))
  }

  /** Vertices per side. */
  function SideCount(nx: nat, nz: nat): nat
  {
    (nx + 1) * (nz + 1)
  }

  /** rows_p (base 0) or rows_s (base = SideCount): the index of vertex
      (i, j) of one side in full_verts. */
  function IndexRows(base: nat, nx: nat, nz: nat): seq<seq<nat>>
  {
    seq(nx + 1, i requires 0 <= i <= nx =>
      seq(nz + 1, j requires 0 <= j <= nz => base + (i * (nz + 1) + j)))
  }

  /** The side quad of cell (i, j) over v1 = (i, j), v2 = (i+1, j),
      v3 = (i+1, j+1), v4 = (i, j+1): (v4, v3, v2, v1) on the port side,
      (v1, v2, v3, v4) on starboard. */
  function CellQuad(base: nat, i: nat, j: nat, nz: nat, port: bool): Face
  {
    var v1, v2 := base + (i * (nz + 1) + j), base + ((i + 1) * (nz + 1) + j);
    var v3, v4 := base + ((i + 1) * (nz + 1) + j + 1), base + (i * (nz + 1) + j + 1);
    if port then [v4, v3, v2, v1] else [v1, v2, v3, v4]
  }

  /** The quads of cells (i, 0) .. (i, j - 1) on one side. */
  function RowQuads(base: nat, i: nat, j: nat, nz: nat, port: bool): seq<Face>
  {
    if j == 0 then [] else RowQuads(base, i, j - 1, nz, port) + [CellQuad(base, i, j - 1, nz, port)]
  }

  /** The quads of rows 0 .. i - 1 of one side. */
  function SideQuads(base: nat, i: nat, nz: nat, port: bool): seq<Face>
  {
    if i == 0 then [] else SideQuads(base, i - 1, nz, port) + RowQuads(base, i - 1, nz, nz, port)
  }

  /** The side faces after s of the two sides [rows_p, rows_s] are done. */
  function SidesDone(s: nat, nx: nat, nz: nat): seq<Face>
  {
    if s == 0 then []
    else if s == 1 then SideQuads(0, nx, nz, true)
    else SideQuads(0, nx, nz, true) + SideQuads(SideCount(nx, nz), nx, nz, false)
  }

  /** top_p[i] and top_s[i]: the last vertex of station i on each side. */
  function TopPort(i: nat, nz: nat): nat
  {
    i * (nz + 1) + nz
  }

  function TopStbd(i: nat, nx: nat, nz: nat): nat
  {
    SideCount(nx, nz) + TopPort(i, nz)
  }

  /** The first count deck quads (top_p[i], top_s[i], top_s[i+1], top_p[i+1]). */
  function DeckQuads(count: nat, nx: nat, nz: nat): seq<Face>
  {
    seq(count, i requires 0 <= i < count =>
      [TopPort(i, nz), TopStbd(i, nx, nz), TopStbd(i + 1, nx, nz), TopPort(i + 1, nz)])
  }

  /** The face list handed to Blender. */
  function WigleyFaces(nx: nat, nz: nat): seq<Face>
  {
    SidesDone(2, nx, nz) + DeckQuads(nx, nx, nz)
  }

  /** The inner loop of the port vertex loop of task_create_wigley: append
      the vertices of station i, the offset clamped at 0, recording the
      index of each. */
  method AppendPortRow(i: nat, prefix: seq<Vec3>) returns (fullVerts: seq<Vec3>, rowIndices: seq<nat>)
    requires i <= Nx
    ensures fullVerts == prefix + SideRows(true)[i]
    ensures |rowIndices| == Nz + 1 && forall j :: 0 <= j <= Nz ==> rowIndices[j] == |prefix| + j
  {
    var x := -Length / 2.0 + (Length * i as real / Nx as real);
    fullVerts := prefix;
    rowIndices := [];
    ghost var row := SideRows(true)[i];
    for j := 0 to Nz + 1
      invariant fullVerts == prefix + row[..j]
      invariant |rowIndices| == j && forall b :: 0 <= b < j ==> rowIndices[b] == |prefix| + b
    {
      var z := -Draft + ((Draft + Freeboard) * j as real / Nz as real);
      var waterline := (Beam / 2.0) * (1.0 - (2.0 * x / Length) * (2.0 * x / Length));
      var y;
      if z < 0.0 {
        y := waterline * (1.0 - (z / Draft) * (z / Draft));
      } else {
        y := waterline;
      }
      assert y == WigleyOffset(x, z);
      if y < 0.0 {
        y := 0.0;
      }
      assert y == PortY(x, z);
      assert x == StationX(i) && z == LevelZ(j) && y == SideY(true, x, z);
      assert Vec3(x, y, z) == row[j];
      assert row[..j + 1] == row[..j] + [row[j]];
      fullVerts := fullVerts + [Vec3(x, y, z)];
      rowIndices := rowIndices + [|fullVerts| - 1];
    }
    assert row[..Nz + 1] == row;
  }

  /** The inner loop of the starboard vertex loop of task_create_wigley:
      append the vertices of station i, the offset negated and snapped to 0
      within 1e-6, recording the index of each. */
  method AppendStbdRow(i: nat, prefix: seq<Vec3>) returns (fullVerts: seq<Vec3>, rowIndices: seq<nat>)
    requires i <= Nx
    ensures fullVerts == prefix + SideRows(false)[i]
    ensures |rowIndices| == Nz + 1 && forall j :: 0 <= j <= Nz ==> rowIndices[j] == |prefix| + j
  {
    var x := -Length / 2.0 + (Length * i as real / Nx as real);
    fullVerts := prefix;
    rowIndices := [];
    ghost var row := SideRows(false)[i];
    for j := 0 to Nz + 1
      invariant fullVerts == prefix + row[..j]
      invariant |rowIndices| == j && forall b :: 0 <= b < j ==> rowIndices[b] == |prefix| + b
    {
      var z := -Draft + ((Draft + Freeboard) * j as real / Nz as real);
      var waterline := (Beam / 2.0) * (1.0 - (2.0 * x / Length) * (2.0 * x / Length));
      var y;
      if z < 0.0 {
        y := -(waterline * (1.0 - (z / Draft) * (z / Draft)));
      } else {
        y := -waterline;
      }
      assert y == -WigleyOffset(x, z);
      if Abs(y) < SnapEps {
        y := 0.0;
      }
      assert y == StbdY(x, z);
      assert x == StationX(i) && z == LevelZ(j) && y == SideY(false, x, z);
      assert Vec3(x, y, z) == row[j];
      assert row[..j + 1] == row[..j] + [row[j]];
      fullVerts := fullVerts + [Vec3(x, y, z)];
      rowIndices := rowIndices + [|fullVerts| - 1];
    }
    assert row[..Nz + 1] == row;
  }

  /** One of the two vertex loops of task_create_wigley: append the rows of
      one side to full_verts, recording in rows the index of each vertex. */
  method AppendSide(port: bool, prefix: seq<Vec3>) returns (fullVerts: seq<Vec3>, rows: seq<seq<nat>>)
    ensures fullVerts == prefix + Flatten(SideRows(port))
    ensures rows == IndexRows(|prefix|, Nx, Nz)
  {
    var n := |prefix|;
    ghost var grid := SideRows(port);
    ghost var idx := IndexRows(n, Nx, Nz);
    fullVerts := prefix;
    rows := [];
    for i := 0 to Nx + 1
      invariant fullVerts == prefix + Flatten(grid[..i])
      invariant |fullVerts| == n + i * (Nz + 1)
      invariant rows == idx[..i]
    {
      var rowIndices;
      if port {
        fullVerts, rowIndices := AppendPortRow(i, fullVerts);
      } else {
        fullVerts, rowIndices := AppendStbdRow(i, fullVerts);
      }
      assert rowIndices == idx[i];
      RowStep(grid, idx, Nz, i, prefix);
      rows := rows + [rowIndices];
    }
    assert grid[..Nx + 1] == grid;
    assert idx[..Nx + 1] == idx;
  }

  /** The vertex loops of task_create_wigley: port rows, then starboard rows. */
  method WigleyVertices() returns (fullVerts: seq<Vec3>, rowsP: seq<seq<nat>>, rowsS: seq<seq<nat>>)
    ensures fullVerts == WigleyVerts()
    ensures rowsP == IndexRows(0, Nx, Nz) && rowsS == IndexRows(SideCount(Nx, Nz), Nx, Nz)
  {
    var portVerts;
    portVerts, rowsP := AppendSide(true, []);
    FlattenLength(SideRows(true), Nz + 1);
    fullVerts, rowsS := AppendSide(false, portVerts);
  }

  /** The side-face loops of task_create_wigley for one side: one quad per
      cell, rows outermost, reversed on the port side. */
  method AppendSideQuads(start: seq<Face>, sideRows: seq<seq<nat>>, base: nat, isPort: bool, nx: nat, nz: nat)
    returns (faces: seq<Face>)
    requires sideRows == IndexRows(base, nx, nz)
    ensures faces == start + SideQuads(base, nx, nz, isPort)
  {
    faces := start;
    for i := 0 to nx
      invariant faces == start + SideQuads(base, i, nz, isPort)
    {
      for j := 0 to nz
        invariant faces == start + SideQuads(base, i, nz, isPort) + RowQuads(base, i, j, nz, isPort)
      {
        var v1, v2 := sideRows[i][j], sideRows[i + 1][j];
        var v3, v4 := sideRows[i + 1][j + 1], sideRows[i][j + 1];
        if isPort {
          faces := faces + [[v4, v3, v2, v1]];
        } else {
          faces := faces + [[v1, v2, v3, v4]];
        }
      }
    }
  }

  /** The deck loop of task_create_wigley: top_p and top_s collect the last
      vertex of every row, and one deck quad joins stations i and i + 1. */
  method AppendDeckQuads(start: seq<Face>, rowsP: seq<seq<nat>>, rowsS: seq<seq<nat>>, nx: nat, nz: nat)
    returns (faces: seq<Face>)
    requires rowsP == IndexRows(0, nx, nz) && rowsS == IndexRows(SideCount(nx, nz), nx, nz)
    ensures faces == start + DeckQuads(nx, nx, nz)
  {
    var topP := seq(nx + 1, i requires 0 <= i <= nx => rowsP[i][|rowsP[i]| - 1]);
    var topS := seq(nx + 1, i requires 0 <= i <= nx => rowsS[i][|rowsS[i]| - 1]);
    assert forall i :: 0 <= i <= nx ==> topP[i] == TopPort(i, nz) && topS[i] == TopStbd(i, nx, nz);
    faces := start;
    for i := 0 to nx
      invariant faces == start + DeckQuads(i, nx, nz)
    {
      faces := faces + [[topP[i], topS[i], topS[i + 1], topP[i + 1]]];
      assert DeckQuads(i + 1, nx, nz) == DeckQuads(i, nx, nz) + [[topP[i], topS[i], topS[i + 1], topP[i + 1]]];
    }
  }

  /** The side and deck face loops of task_create_wigley. */
  method WigleyFaceList(nx: nat, nz: nat, rowsP: seq<seq<nat>>, rowsS: seq<seq<nat>>) returns (faces: seq<Face>)
    requires rowsP == IndexRows(0, nx, nz) && rowsS == IndexRows(SideCount(nx, nz), nx, nz)
    ensures faces == WigleyFaces(nx, nz)
  {
    faces := [];
    for s := 0 to 2
      invariant faces == SidesDone(s, nx, nz)
    {
      var sideRows := if s == 0 then rowsP else rowsS;
      var isPort := s == 0;
      faces := AppendSideQuads(faces, sideRows, if s == 0 then 0 else SideCount(nx, nz), isPort, nx, nz);
    }
    faces := AppendDeckQuads(faces, rowsP, rowsS, nx, nz);
  }

  /** task_create_wigley with its own grid sizes, up to mesh.from_pydata. */
  method WigleyMesh() returns (fullVerts: seq<Vec3>, faces: seq<Face>)
    ensures fullVerts == WigleyVerts() && faces == WigleyFaces(Nx, Nz)
  {
    var rowsP, rowsS;
    fullVerts, rowsP, rowsS := WigleyVertices();
    faces := WigleyFaceList(Nx, Nz, rowsP, rowsS);
  }

  /** Closing one row of a vertex loop: the finished row extends the
      flattening and the index rows by one row. */
  lemma RowStep<T>(grid: seq<seq<T>>, idx: seq<seq<nat>>, nz: nat, i: nat, prefix: seq<T>)
    requires i < |grid| && i < |idx| && |grid[i]| == nz + 1 && |idx[i]| == nz + 1
    ensures prefix + Flatten(grid[..i + 1]) == prefix + Flatten(grid[..i]) + grid[i][..nz + 1]
    ensures idx[..i + 1] == idx[..i] + [idx[i][..nz + 1]]
    ensures (i + 1) * (nz + 1) == i * (nz + 1) + nz + 1
  {
    assert grid[i][..nz + 1] == grid[i];
    assert grid[..i + 1] == grid[..i] + [grid[i]];
    FlattenSnoc(grid[..i], grid[i]);
    assert idx[i][..nz + 1] == idx[i];
    assert idx[..i + 1] == idx[..i] + [idx[i]];
  }

  /** Vertex layout: 2 (nx + 1)(nz + 1) vertices; port vertex (i, j) at
      i (nz + 1) + j and starboard vertex (i, j) one side's worth later. */
  lemma WigleyVertsLayout(i: nat, j: nat)
    requires i <= Nx && j <= Nz
    ensures |WigleyVerts()| == 2 * SideCount(Nx, Nz)
    ensures i * (Nz + 1) + j < SideCount(Nx, Nz)
    ensures WigleyVerts()[i * (Nz + 1) + j] == Vec3(StationX(i), PortY(StationX(i), LevelZ(j)), LevelZ(j))
    ensures WigleyVerts()[SideCount(Nx, Nz) + (i * (Nz + 1) + j)] == Vec3(StationX(i), StbdY(StationX(i), LevelZ(j)), LevelZ(j))
  {
    SideBlockAt(true, i, j);
    SideBlockAt(false, i, j);
  }

  /** Within one side's block, vertex (i, j) is at i (nz + 1) + j. */
  lemma SideBlockAt(port: bool, i: nat, j: nat)
    requires i <= Nx && j <= Nz
    ensures |Flatten(SideRows(port))| == SideCount(Nx, Nz)
    ensures Flatten(SideRows(port))[i * (Nz + 1) + j] == Vec3(StationX(i), SideY(port, StationX(i), LevelZ(j)), LevelZ(j))
  {
    var g := SideRows(port);
    assert Rectangular(g, Nz + 1);
    FlattenAt(g, Nz + 1, i, j);
  }

  /** Stations run from -L/2 (i = 0) to L/2 (i = nx). */
  lemma StationRange(i: nat)
    requires i <= Nx
    ensures -Length / 2.0 <= StationX(i) <= Length / 2.0
    ensures StationX(0) == -Length / 2.0 && StationX(Nx) == Length / 2.0
  {
  }

  /** Levels run from the keel z = -T (j = 0) to the deck z = D_freeboard (j = nz). */
  lemma LevelRange(j: nat)
    requires j <= Nz
    ensures -Draft <= LevelZ(j) <= Freeboard
    ensures LevelZ(0) == -Draft && LevelZ(Nz) == Freeboard
  {
  }

  /** Within the hull's box (|x| <= L/2, z >= -T) the formula is never
      negative, so the port clamp never takes effect there; everywhere the
      port offset is the formula where that is >= 0 and 0 elsewhere. */
  lemma PortOffsetNonNegative(x: real, z: real)
    ensures PortY(x, z) >= 0.0
    ensures PortY(x, z) == (if WigleyOffset(x, z) >= 0.0 then WigleyOffset(x, z) else 0.0)
    ensures -Length / 2.0 <= x <= Length / 2.0 && -Draft <= z ==> PortY(x, z) == WigleyOffset(x, z)
  {
    if -Length / 2.0 <= x <= Length / 2.0 && -Draft <= z {
      var a := 2.0 * x / Length;
      assert -1.0 <= a <= 1.0;
      assert a * a <= 1.0 by {
        if a >= 0.0 { assert a * a <= a * 1.0; } else { assert a * a <= (-a) * 1.0; }
      }
      var w := (Beam / 2.0) * (1.0 - a * a);
      assert w >= 0.0;
      if z < 0.0 {
        var b := z / Draft;
        assert -1.0 <= b < 0.0;
        assert b * b <= 1.0 by { assert b * b <= (-b) * 1.0; }
        assert w * (1.0 - b * b) >= 0.0;
      }
    }
  }

  /** Where the formula is not negative (the whole hull box), the starboard
      offset is the negated port offset, except that offsets below 1e-6 are
      snapped to 0. */
  lemma StarboardMirrorsPort(x: real, z: real)
    requires WigleyOffset(x, z) >= 0.0
    ensures StbdY(x, z) == (if PortY(x, z) < SnapEps then 0.0 else -PortY(x, z))
  {
  }

  /** Row i of one side holds j quads after j cells. */
  lemma {:induction false} RowQuadsLength(base: nat, i: nat, j: nat, nz: nat, port: bool)
    ensures |RowQuads(base, i, j, nz, port)| == j
  {
    if j > 0 {
      RowQuadsLength(base, i, j - 1, nz, port);
    }
  }

  /** Within row i, the quad of cell (i, c) is at position c. */
  lemma {:induction false} RowQuadsAt(base: nat, i: nat, j: nat, nz: nat, port: bool, c: nat)
    requires c < j
    ensures c < |RowQuads(base, i, j, nz, port)| && RowQuads(base, i, j, nz, port)[c] == CellQuad(base, i, c, nz, port)
  {
    RowQuadsLength(base, i, j - 1, nz, port);
    if c < j - 1 {
      RowQuadsAt(base, i, j - 1, nz, port, c);
    }
  }

  /** One side of nx stations has exactly nx * nz quads. */
  lemma {:induction false} SideQuadsLength(base: nat, nx: nat, nz: nat, port: bool)
    ensures |SideQuads(base, nx, nz, port)| == nx * nz
  {
    if nx > 0 {
      SideQuadsLength(base, nx - 1, nz, port);
      RowQuadsLength(base, nx - 1, nz, nz, port);
      assert nx * nz == (nx - 1) * nz + nz;
    }
  }

  /** The quad of cell (i, j) of one side is at position i * nz + j, rows
      first, as the loops run. */
  lemma {:induction false} SideQuadsAt(base: nat, nx: nat, nz: nat, port: bool, i: nat, j: nat)
    requires i < nx && j < nz
    ensures |SideQuads(base, nx, nz, port)| == nx * nz
    ensures i * nz + j < nx * nz
    ensures SideQuads(base, nx, nz, port)[i * nz + j] == CellQuad(base, i, j, nz, port)
  {
    var m := nx - 1;
    var prev, row := SideQuads(base, m, nz, port), RowQuads(base, m, nz, nz, port);
    assert SideQuads(base, nx, nz, port) == prev + row;
    SideQuadsLength(base, nx, nz, port);
    SideQuadsLength(base, m, nz, port);
    RowQuadsLength(base, m, nz, nz, port);
    if i < m {
      SideQuadsAt(base, m, nz, port, i, j);
    } else {
      RowQuadsAt(base, m, nz, nz, port, j);
      assert i * nz + j == |prev| + j by { assert i * nz == m * nz; }
    }
  }

  /** The face list holds 2 nx nz side quads (port block, then starboard
      block) followed by nx deck quads. */
  lemma WigleyFacesAt(nx: nat, nz: nat, i: nat, j: nat)
    requires i < nx && j < nz
    ensures |WigleyFaces(nx, nz)| == 2 * (nx * nz) + nx
    ensures i * nz + j < nx * nz
    ensures WigleyFaces(nx, nz)[i * nz + j] == CellQuad(0, i, j, nz, true)
    ensures WigleyFaces(nx, nz)[nx * nz + (i * nz + j)] == CellQuad(SideCount(nx, nz), i, j, nz, false)
  {
    var p, q, d := SideQuads(0, nx, nz, true), SideQuads(SideCount(nx, nz), nx, nz, false), DeckQuads(nx, nx, nz);
    var k := i * nz + j;
    var m := nx * nz;
    assert WigleyFaces(nx, nz) == p + q + d;
    assert |p| == m && k < m && p[k] == CellQuad(0, i, j, nz, true) by {
      SideQuadsAt(0, nx, nz, true, i, j);
    }
    assert |q| == m && q[k] == CellQuad(SideCount(nx, nz), i, j, nz, false) by {
      SideQuadsAt(SideCount(nx, nz), nx, nz, false, i, j);
    }
    BlocksAt(p, q, d, m, k, i);
  }

  /** Deck quad i follows the 2 nx nz side quads. */
  lemma WigleyDeckFacesAt(nx: nat, nz: nat, i: nat)
    requires i < nx
    ensures |WigleyFaces(nx, nz)| == 2 * (nx * nz) + nx
    ensures WigleyFaces(nx, nz)[2 * (nx * nz) + i] == DeckQuads(nx, nx, nz)[i]
  {
    var p, q, d := SideQuads(0, nx, nz, true), SideQuads(SideCount(nx, nz), nx, nz, false), DeckQuads(nx, nx, nz);
    var m := nx * nz;
    assert WigleyFaces(nx, nz) == p + q + d;
    SideQuadsLength(0, nx, nz, true);
    SideQuadsLength(SideCount(nx, nz), nx, nz, false);
    assert (p + q + d)[|p| + |q| + i] == d[i];
  }

  /** Indexing into three concatenated blocks, the first two of length m. */
  lemma BlocksAt<T>(p: seq<T>, q: seq<T>, d: seq<T>, m: nat, k: nat, i: nat)
    requires |p| == m && |q| == m && k < m && i < |d|
    ensures |p + q + d| == 2 * m + |d|
    ensures (p + q + d)[k] == p[k] && (p + q + d)[m + k] == q[k] && (p + q + d)[2 * m + i] == d[i]
  {
  }

  /** The port quad of a cell is the starboard vertex tuple reversed. */
  lemma PortQuadReversed(base: nat, i: nat, j: nat, nz: nat)
    ensures |CellQuad(base, i, j, nz, true)| == |CellQuad(base, i, j, nz, false)| == 4
    ensures forall k :: 0 <= k < 4 ==> CellQuad(base, i, j, nz, true)[k] == CellQuad(base, i, j, nz, false)[3 - k]
  {
  }

  /** A quad with four distinct indices in [lo, hi). */
  predicate GoodQuad(f: Face, lo: nat, hi: nat)
  {
    |f| == 4 && DistinctIndices(f) && FaceWithin(f, lo, hi)
  }

  lemma CellQuadGood(base: nat, i: nat, j: nat, nx: nat, nz: nat, port: bool)
    requires i < nx && j < nz
    ensures GoodQuad(CellQuad(base, i, j, nz, port), base, base + SideCount(nx, nz))
  {
    RowMajorBound(i + 1, j + 1, nz + 1, nx + 1);
    assert (i + 1) * (nz + 1) == i * (nz + 1) + nz + 1;
  }

  lemma {:induction false} RowQuadsGood(base: nat, i: nat, j: nat, nx: nat, nz: nat, port: bool)
    requires i < nx && j <= nz
    ensures forall f :: f in RowQuads(base, i, j, nz, port) ==> GoodQuad(f, base, base + SideCount(nx, nz))
  {
    if j > 0 {
      RowQuadsGood(base, i, j - 1, nx, nz, port);
      CellQuadGood(base, i, j - 1, nx, nz, port);
    }
  }

  lemma {:induction false} SideQuadsGood(base: nat, i: nat, nx: nat, nz: nat, port: bool)
    requires i <= nx
    ensures forall f :: f in SideQuads(base, i, nz, port) ==> GoodQuad(f, base, base + SideCount(nx, nz))
  {
    if i > 0 {
      SideQuadsGood(base, i - 1, nx, nz, port);
      RowQuadsGood(base, i - 1, nz, nx, nz, port);
    }
  }

  lemma DeckQuadsGood(nx: nat, nz: nat)
    ensures forall f :: f in DeckQuads(nx, nx, nz) ==> GoodQuad(f, 0, 2 * SideCount(nx, nz))
  {
    forall k | 0 <= k < nx ensures GoodQuad(DeckQuads(nx, nx, nz)[k], 0, 2 * SideCount(nx, nz)) {
      RowMajorBound(k + 1, nz, nz + 1, nx + 1);
      assert (k + 1) * (nz + 1) == k * (nz + 1) + nz + 1;
    }
  }

  /** Every face is a quad of four distinct indices below len(full_verts);
      the port quads use only the port block and the starboard quads only
      the starboard block. */
  lemma WigleyFacesGood(nx: nat, nz: nat)
    ensures var n := SideCount(nx, nz);
      && (forall f :: f in SideQuads(0, nx, nz, true) ==> GoodQuad(f, 0, n))
      && (forall f :: f in SideQuads(n, nx, nz, false) ==> GoodQuad(f, n, 2 * n))
      && (forall f :: f in WigleyFaces(nx, nz) ==> GoodQuad(f, 0, 2 * n))
  {
    var n := SideCount(nx, nz);
    SideQuadsGood(0, nx, nx, nz, true);
    SideQuadsGood(n, nx, nx, nz, false);
    DeckQuadsGood(nx, nz);
  }

  /** The deck quads are wound consistently with the side quads they meet:
      along the top of station interval i, the port side quad runs
      top_p[i] -> top_p[i+1] and the deck quad top_p[i+1] -> top_p[i]; the
      starboard side quad runs top_s[i+1] -> top_s[i] and the deck quad
      top_s[i] -> top_s[i+1]. */
  lemma DeckMatchesSides(nx: nat, nz: nat, i: nat)
    requires i < nx && 0 < nz
    ensures var n, d := SideCount(nx, nz), DeckQuads(nx, nx, nz)[i];
      && HasEdge(CellQuad(0, i, nz - 1, nz, true), TopPort(i, nz), TopPort(i + 1, nz))
      && HasEdge(d, TopPort(i + 1, nz), TopPort(i, nz))
      && HasEdge(CellQuad(n, i, nz - 1, nz, false), TopStbd(i + 1, nx, nz), TopStbd(i, nx, nz))
      && HasEdge(d, TopStbd(i, nx, nz), TopStbd(i + 1, nx, nz))
  {
    var n, d := SideCount(nx, nz), DeckQuads(nx, nx, nz)[i];
    var p, s := CellQuad(0, i, nz - 1, nz, true), CellQuad(n, i, nz - 1, nz, false);
    assert p[0] == TopPort(i, nz) && p[(0 + 1) % 4] == TopPort(i + 1, nz);
    assert d[3] == TopPort(i + 1, nz) && d[(3 + 1) % 4] == TopPort(i, nz);
    assert s[2] == TopStbd(i + 1, nx, nz) && s[(2 + 1) % 4] == TopStbd(i, nx, nz);
    assert d[1] == TopStbd(i, nx, nz) && d[(1 + 1) % 4] == TopStbd(i + 1, nx, nz);
  }
}
