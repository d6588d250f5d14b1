/** The Europe IIa push barge of generate_hull.py: a box section with a flat
    bottom, a quarter-circle bilge and a vertical side, on a keel line that
    rises parabolically at the stern rake and with a 1.5-power at the bow
    rake. Stations are i * L / nx for i = 0..nx; girth points j = 0..ny are
    spread over three zones of the girth parameter t = j / ny: bottom
    [0, 0.4), bilge [0.4, 0.6), side [0.6, 1]. */
module EuropeBarge {
  import opened Mesh
  import opened Curves
  import opened RealArith
  import GridMesh

  const Length: real := 76.5
  const Beam: real := 11.4
  const Depth: real := 4.0
  const HalfBeam: real := Beam / 2.0
  const RakeLen: real := 6.0
  const BilgeRadius: real := 0.5
  const Nx: nat := 60
  const Ny: nat := 15

  /** Longitudinal position of station i. */
  function StationX(i: nat): real
  {
    (i as real / Nx as real) * Length
  }

  /** z_bottom: the keel height at x. */
  function KeelHeight(c: Curves, x: real): real
  {
    if x < RakeLen then
      var t := 1.0 - x / RakeLen;
      Depth * 0.8 * (t * t)
    else if x > Length - RakeLen then
      var t := (x - (Length - RakeLen)) / RakeLen;
      Depth * 0.9 * c.pow15(t)
    else
      0.0
  }

  /** eff_w: the half-breadth at x, tapered over the first and last metre. */
  function EffHalfBeam(x: real): real
  {
    var sternTapered := if x < 1.0 then HalfBeam * (0.8 + 0.2 * x) else HalfBeam;
    if x > Length - 1.0 then HalfBeam * (0.8 + 0.2 * (Length - x)) else sternTapered
  }

  /** The bilge radius, clamped so that it never exceeds the half-breadth. */
  function EffBilgeRadius(effW: real): real
  {
    if BilgeRadius > effW then effW else BilgeRadius
  }

  /** Bottom zone, u in [0, 1): from the keel out to the start of the bilge. */
  function BottomPoint(x: real, effW: real, r: real, zb: real, u: real): Vec3
  {
    Vec3(x, u * (effW - r), zb)
  }

  /** Bilge zone, u in [0, 1): a quarter circle of radius r. */
  function BilgePoint(c: Curves, x: real, effW: real, r: real, zb: real, u: real): Vec3
  {
    Vec3(x, (effW - r) + r * c.sinQ(u), zb + r * (1.0 - c.cosQ(u)))
  }

  /** Side zone, u in [0, 1]: straight up from the top of the bilge to the deck. */
  function SidePoint(x: real, effW: real, r: real, zb: real, u: real): Vec3
  {
    Vec3(x, effW, (zb + r) + u * (Depth - (zb + r)))
  }

  /** Girth point j of the section at x over a keel at height zb. */
  function SectionPoint(c: Curves, x: real, zb: real, j: nat): Vec3
  {
    var t := j as real / Ny as real;
    var effW := EffHalfBeam(x);
    var r := EffBilgeRadius(effW);
    if t < 0.4 then BottomPoint(x, effW, r, zb, t / 0.4)
    else if t < 0.6 then BilgePoint(c, x, effW, r, zb, (t - 0.4) / 0.2)
    else SidePoint(x, effW, r, zb, (t - 0.6) / 0.4)
  }

  /** Node (i, j) of the barge grid. */
  function GridPoint(c: Curves, i: nat, j: nat): Vec3
  {
    var x := StationX(i);
    SectionPoint(c, x, KeelHeight(c, x), j)
  }

  /** The girth loop of generate_europe_iia_barge: the ny + 1 section
      points of the station at x over a keel at height zBottom. */
  method SectionRow(c: Curves, x: real, zBottom: real) returns (row: seq<Vec3>)
    ensures |row| == Ny + 1
    ensures forall b :: 0 <= b <= Ny ==> row[b] == SectionPoint(c, x, zBottom, b)
  {
    row := [];
    for j := 0 to Ny + 1
      invariant |row| == j
      invariant forall b :: 0 <= b < j ==> row[b] == SectionPoint(c, x, zBottom, b)
    {
      var t := j as real / Ny as real;
      var effW := HalfBeam;
      if x < 1.0 {
        effW := HalfBeam * (0.8 + 0.2 * x);
      }
      if x > Length - 1.0 {
        effW := HalfBeam * (0.8 + 0.2 * (Length - x));
      }
      var r := BilgeRadius;
      if r > effW {
        r := effW;
      }
      assert effW == EffHalfBeam(x) && r == EffBilgeRadius(effW);
      var p;
      if t < 0.4 {
        p := BottomPoint(x, effW, r, zBottom, t / 0.4);
      } else if t < 0.6 {
        p := BilgePoint(c, x, effW, r, zBottom, (t - 0.4) / 0.2);
      } else {
        p := SidePoint(x, effW, r, zBottom, (t - 0.6) / 0.4);
      }
      row := row + [p];
    }
  }

  /** The station loop of generate_europe_iia_barge: one row of ny + 1
      section points per station. */
  method BargeGrid(c: Curves) returns (grid: seq<seq<Vec3>>)
    ensures |grid| == Nx + 1 && Rectangular(grid, Ny + 1)
    ensures forall i, j :: 0 <= i <= Nx && 0 <= j <= Ny ==> grid[i][j] == GridPoint(c, i, j)
  {
    grid := [];
    for i := 0 to Nx + 1
      invariant |grid| == i && Rectangular(grid, Ny + 1)
      invariant forall a, b :: 0 <= a < i && 0 <= b <= Ny ==> grid[a][b] == GridPoint(c, a, b)
    {
      var x := (i as real / Nx as real) * Length;
      var zBottom := 0.0;
      if x < RakeLen {
        var t := 1.0 - x / RakeLen;
        zBottom := Depth * 0.8 * (t * t);
      } else if x > Length - RakeLen {
        var t := (x - (Length - RakeLen)) / RakeLen;
        zBottom := Depth * 0.9 * c.pow15(t);
      }
      assert x == StationX(i) && zBottom == KeelHeight(c, x);
      var row := SectionRow(c, x, zBottom);
      grid := grid + [row];
    }
  }

  /** generate_europe_iia_barge: the barge grid handed to grid_to_mesh. */
  method EuropeBargeMesh(c: Curves) returns (verts: seq<Vec3>, faces: seq<Face>)
    ensures |verts| == 2 * GridMesh.NodeCount(Nx, Ny)
    ensures forall i, j :: 0 <= i <= Nx && 0 <= j <= Ny ==> verts[GridMesh.NodeIndex(i, j, Ny)] == GridPoint(c, i, j)
    ensures faces == GridMesh.GridFaces(Nx, Ny)
    ensures verts[GridMesh.NodeCount(Nx, Ny)..] == GridMesh.MirrorVerts(verts[..GridMesh.NodeCount(Nx, Ny)])
  {
    var grid := BargeGrid(c);
    verts, faces := GridMesh.GridToMesh(grid);
    GridMesh.GridVertsLayout(grid);
    forall i, j | 0 <= i <= Nx && 0 <= j <= Ny
      ensures verts[GridMesh.NodeIndex(i, j, Ny)] == GridPoint(c, i, j)
    {
      assert verts[GridMesh.NodeIndex(i, j, Ny)] == grid[i][j];
    }
    GridMesh.GridVertsMirror(grid, Nx, Ny);
  }

  /** The bottom is flat (z_bottom = 0) between the two rakes. */
  lemma KeelFlatAmidships(c: Curves, x: real)
    requires RakeLen <= x <= Length - RakeLen
    ensures KeelHeight(c, x) == 0.0
  {
  }

  /** Along the hull the keel stays between 0 and 0.9 D. */
  lemma KeelHeightBounds(c: Curves, x: real)
    requires Valid(c) && 0.0 <= x <= Length
    ensures 0.0 <= KeelHeight(c, x) <= 0.9 * Depth
  {
    if x < RakeLen {
      var t := 1.0 - x / RakeLen;
      var sq := t * t;
      assert 0.0 <= sq <= 1.0 by {
        assert 0.0 < t <= 1.0;
        assert t * t <= t * 1.0;
      }
      assert KeelHeight(c, x) == Depth * 0.8 * sq;
    } else if x > Length - RakeLen {
      var t := (x - (Length - RakeLen)) / RakeLen;
      assert 0.0 < t <= 1.0;
      var p := c.pow15(t);
      assert 0.0 <= p <= 1.0;
      assert KeelHeight(c, x) == Depth * 0.9 * p;
    }
  }

  /** The keel rises to 0.8 D at the stern (x = 0) and to 0.9 D at the bow
      (x = L). */
  lemma KeelHeightEnds(c: Curves)
    requires Valid(c)
    ensures KeelHeight(c, 0.0) == 0.8 * Depth
    ensures KeelHeight(c, Length) == 0.9 * Depth
  {
    var t := (Length - (Length - RakeLen)) / RakeLen;
    assert t == 1.0;
    assert c.pow15(t) == 1.0;
  }

  /** The bilge radius is min(bilge_radius, eff_w); on the hull eff_w is at
      least 0.8 w, so the clamp never takes effect there. */
  lemma BilgeRadiusClamped(x: real)
    ensures EffBilgeRadius(EffHalfBeam(x)) <= EffHalfBeam(x)
    ensures EffBilgeRadius(EffHalfBeam(x)) <= BilgeRadius
    ensures EffBilgeRadius(EffHalfBeam(x)) == EffHalfBeam(x) || EffBilgeRadius(EffHalfBeam(x)) == BilgeRadius
    ensures 0.0 <= x <= Length ==> 0.8 * HalfBeam <= EffHalfBeam(x) <= HalfBeam
    ensures 0.0 <= x <= Length ==> EffBilgeRadius(EffHalfBeam(x)) == BilgeRadius
  {
  }

  /** The first girth point (j = 0) is the keel point on the centre plane. */
  lemma KeelPointOnCentrePlane(c: Curves, x: real, zb: real)
    ensures SectionPoint(c, x, zb, 0) == Vec3(x, 0.0, zb)
  {
  }

  /** Every side-zone point (t >= 0.6) lies at the full half-breadth eff_w,
      and the last one (j = ny) is the deck edge (eff_w, D). */
  lemma SideAtFullBeam(c: Curves, x: real, zb: real, j: nat)
    requires j <= Ny && j as real / Ny as real >= 0.6
    ensures SectionPoint(c, x, zb, j).y == EffHalfBeam(x)
    ensures SectionPoint(c, x, zb, Ny) == Vec3(x, EffHalfBeam(x), Depth)
  {
  }

  /** On the hull, every girth point lies between the centre plane and the
      half-breadth eff_w. */
  lemma SectionWithinHalfBeam(c: Curves, x: real, zb: real, j: nat)
    requires Valid(c) && 0.0 <= x <= Length && j <= Ny
    ensures 0.0 <= SectionPoint(c, x, zb, j).y <= EffHalfBeam(x)
  {
    BilgeRadiusClamped(x);
    var t := j as real / Ny as real;
    var effW := EffHalfBeam(x);
    var r := EffBilgeRadius(effW);
    assert r == BilgeRadius && r <= effW;
    if t < 0.4 {
      var u := t / 0.4;
      assert u == 2.5 * t && 0.0 <= u <= 1.0;
      BottomWithin(x, effW, r, zb, u);
    } else if t < 0.6 {
      var u := (t - 0.4) / 0.2;
      assert u == 5.0 * (t - 0.4) && 0.0 <= u <= 1.0;
      BilgeWithin(c, x, effW, r, zb, u);
    }
  }

  lemma BottomWithin(x: real, effW: real, r: real, zb: real, u: real)
    requires 0.0 <= r <= effW && 0.0 <= u <= 1.0
    ensures 0.0 <= BottomPoint(x, effW, r, zb, u).y <= effW
  {
    var a := effW - r;
    ScaledWithin(a, u);
    assert BottomPoint(x, effW, r, zb, u).y == u * a;
  }

  lemma BilgeWithin(c: Curves, x: real, effW: real, r: real, zb: real, u: real)
    requires Valid(c) && 0.0 <= r <= effW && 0.0 <= u <= 1.0
    ensures 0.0 <= BilgePoint(c, x, effW, r, zb, u).y <= effW
  {
    var s := c.sinQ(u);
    assert 0.0 <= s <= 1.0;
    ScaledWithin(r, s);
    assert BilgePoint(c, x, effW, r, zb, u).y == (effW - r) + r * s;
  }

  /** The three zones join up: the bottom ends where the bilge starts, at
      (eff_w - r, z_bottom), and the bilge ends where the side starts, at
      (eff_w, z_bottom + r). */
  lemma ZonesJoin(c: Curves, x: real, effW: real, r: real, zb: real)
    requires Valid(c)
    ensures BottomPoint(x, effW, r, zb, 1.0) == BilgePoint(c, x, effW, r, zb, 0.0)
    ensures BilgePoint(c, x, effW, r, zb, 1.0) == SidePoint(x, effW, r, zb, 0.0)
  {
  }

  /** At the bow station (i = nx, x = L) the keel is at 0.9 D = 3.6 and the
      bilge ends at 3.6 + 0.5, above the deck at D = 4: its side zone starts
      above the deck and runs down to it. */
  lemma BowStationBilgeAboveDeck(c: Curves)
    requires Valid(c)
    ensures GridPoint(c, Nx, 9).z > Depth
    ensures GridPoint(c, Nx, Ny).z == Depth
  {
    KeelHeightEnds(c);
    assert StationX(Nx) == Length;
    assert (9 as real / Ny as real - 0.6) / 0.4 == 0.0;
  }
}
