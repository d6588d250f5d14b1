/** The sub-division control cage of create_hull_subd (blender_ship_subd.py):
    one six-point starboard rib per station, lofted into quads between
    consecutive ribs, closed at the bow by a fan onto two tip vertices and at
    the stern by one hexagon over the first rib. The vertex and face lists
    are modelled up to the point where they are handed to bmesh; the mirror
    and sub-division modifiers and the normal recalculation that follow are
    not. */
module ShipSubd {
  import opened Mesh
  import opened Curves

  const Length: real := 320.0
  const Beam: real := 58.0
  const Depth: real := 30.0
  const HalfBeam: real := Beam / 2.0

  const BulbNoseX: real := 325.0
  const BulbWidth: real := 4.5
  const BulbZCenter: real := 8.0
  const BulbHeightR: real := 6.0

  /** x of the deck nose tip. */
  const DeckTipX: real := 324.0

  /** Vertices per rib: keel, bilge low, bilge high, waterline, deck side,
      deck centre. */
  const RibSize: nat := 6

  /** The stations at which ribs are lofted. */
  const Stations: seq<real> := [0.0, 20.0, 60.0, 100.0, 160.0, 220.0, 280.0, 305.0, 315.0, 322.0]

  /** The rib at station x (get_profile_verts). Negative x is outside its
      domain: the stern-run width factor would take the square root of a
      negative number. */
  function ProfileVerts(c: Curves, x: real): (r: seq<Vec3>)
    requires 0.0 <= x
    ensures |r| == RibSize
    ensures forall k :: 0 <= k < |r| ==> r[k].x == x
    ensures r[0].y == 0.0 && r[5].y == 0.0
    ensures r[4].z == Depth && r[5].z == Depth
  {
    if x < 60.0 then
      var t := x / 60.0;
      var wFactor := 0.6 + 0.4 * c.sqrt(t);
      if x < 10.0 then
        [Vec3(x, 0.0, 0.0),
         Vec3(x, HalfBeam * 0.3, 0.5),
         Vec3(x, HalfBeam * wFactor, 15.0),
         Vec3(x, HalfBeam * wFactor, 20.0),
         Vec3(x, HalfBeam * wFactor, Depth),
         Vec3(x, 0.0, Depth)]
      else
        [Vec3(x, 0.0, 0.0),
         Vec3(x, HalfBeam * 0.8 * wFactor, 0.0),
         Vec3(x, HalfBeam * wFactor, 4.0),
         Vec3(x, HalfBeam * wFactor, 15.0),
         Vec3(x, HalfBeam * wFactor, Depth),
         Vec3(x, 0.0, Depth)]
    else if x <= 250.0 then
      [Vec3(x, 0.0, 0.0),
       Vec3(x, HalfBeam * 0.8, 0.0),
       Vec3(x, HalfBeam, 4.0),
       Vec3(x, HalfBeam, 15.0),
       Vec3(x, HalfBeam, Depth),
       Vec3(x, 0.0, Depth)]
    else if x < 310.0 then
      var t := (x - 250.0) / (310.0 - 250.0);
      var w0 := HalfBeam * (1.0 - t * t);
      var w := if w0 < BulbWidth * 1.5 then BulbWidth * 1.5 else w0;
      [Vec3(x, 0.0, 0.0),
       Vec3(x, w * 0.5, 0.5),
       Vec3(x, w, 5.0),
       Vec3(x, w * 1.1, 15.0),
       Vec3(x, w * 1.2, Depth),
       Vec3(x, 0.0, Depth)]
    else
      var flareW := HalfBeam * 0.4;
      [Vec3(x, 0.0, BulbZCenter - BulbHeightR),
       Vec3(x, BulbWidth, BulbZCenter - BulbHeightR * 0.5),
       Vec3(x, BulbWidth, BulbZCenter + BulbHeightR * 0.5),
       Vec3(x, BulbWidth * 0.5, BulbZCenter + BulbHeightR),
       Vec3(x, flareW, Depth),
       Vec3(x, 0.0, Depth)]
  }

  /** Every rib climbs from the keel to the deck: z never decreases along it. */
  lemma ProfileClimbs(c: Curves, x: real)
    requires 0.0 <= x
    ensures forall k :: 0 <= k < RibSize - 1 ==> ProfileVerts(c, x)[k].z <= ProfileVerts(c, x)[k + 1].z
  {
  }

  /** With the real square root, every rib lies on the starboard side. */
  lemma ProfileStarboard(c: Curves, x: real)
    requires Valid(c) && 0.0 <= x
    ensures forall k :: 0 <= k < RibSize ==> 0.0 <= ProfileVerts(c, x)[k].y
  {
    if x < 60.0 {
      assert 0.0 <= x / 60.0 <= 1.0;
    }
  }

  /** Between x = 60 and x = 250 the rib is the fixed midship section. */
  lemma MidbodyFixed(c: Curves, x: real)
    requires 60.0 <= x <= 250.0
    ensures ProfileVerts(c, x) ==
      [Vec3(x, 0.0, 0.0), Vec3(x, 0.8 * HalfBeam, 0.0), Vec3(x, HalfBeam, 4.0),
       Vec3(x, HalfBeam, 15.0), Vec3(x, HalfBeam, Depth), Vec3(x, 0.0, Depth)]
  {
  }

  /** In the stern run the width factor 0.6 + 0.4 sqrt(x / 60) keeps points
      2 to 4 on one vertical line between 0.6 and 1 times the half beam. */
  lemma SternRunWidth(c: Curves, x: real)
    requires Valid(c) && 0.0 <= x < 60.0
    ensures ProfileVerts(c, x)[2].y == ProfileVerts(c, x)[3].y == ProfileVerts(c, x)[4].y
    ensures 0.6 * HalfBeam <= ProfileVerts(c, x)[4].y <= HalfBeam
  {
    var t := x / 60.0;
    assert 0.0 <= t <= 1.0;
    assert 0.0 <= c.sqrt(t) <= 1.0;
  }

  /** At the transom (x = 0) the side stands at 0.6 of the half beam. */
  lemma TransomSectionWidth(c: Curves)
    requires Valid(c)
    ensures ProfileVerts(c, 0.0)[4].y == 0.6 * HalfBeam
  {
    assert 0.0 / 60.0 == 0.0;
  }

  /** In the bow transition the rib width is max(half_B (1 - t^2), 1.5 bulb
      width) with t = (x - 250) / 60, never wider than the half beam; the
      lower bilge, waterline and deck points sit at 0.5, 1.1 and 1.2 times it. */
  lemma BowTaper(c: Curves, x: real)
    requires 250.0 < x < 310.0
    ensures var r := ProfileVerts(c, x);
      var t := (x - 250.0) / 60.0;
      && r[2].y >= 1.5 * BulbWidth
      && r[2].y >= HalfBeam * (1.0 - t * t)
      && (r[2].y == 1.5 * BulbWidth || r[2].y == HalfBeam * (1.0 - t * t))
      && r[2].y <= HalfBeam
      && r[1].y == 0.5 * r[2].y && r[3].y == 1.1 * r[2].y && r[4].y == 1.2 * r[2].y
  {
    var t := (x - 250.0) / 60.0;
    assert 0.0 < t < 1.0;
    assert 0.0 <= t * t;
  }

  /** From x = 310 on the rib is the fixed keyhole section around the bulb. */
  lemma BulbFixed(c: Curves, x: real)
    requires 310.0 <= x
    ensures ProfileVerts(c, x) ==
      [Vec3(x, 0.0, 2.0), Vec3(x, 4.5, 5.0), Vec3(x, 4.5, 11.0),
       Vec3(x, 2.25, 14.0), Vec3(x, 0.4 * HalfBeam, Depth), Vec3(x, 0.0, Depth)]
  {
  }

  /** The stations run strictly upwards from the transom at 0 to 322. */
  lemma StationsIncreasing()
    ensures |Stations| == 10 && Stations[0] == 0.0 && Stations[|Stations| - 1] == 322.0
    ensures forall a, b :: 0 <= a < b < |Stations| ==> Stations[a] < Stations[b]
  {
  }

  /** The ribs of all stations, in station order. */
  function Profiles(c: Curves, st: seq<real>): (ps: seq<seq<Vec3>>)
    requires forall k :: 0 <= k < |st| ==> 0.0 <= st[k]
    ensures |ps| == |st| && Rectangular(ps, RibSize)
  {
    seq(|st|, i requires 0 <= i < |st| => ProfileVerts(c, st[i]))
  }

  /** The bulb nose tip and the deck nose tip. */
  const NoseTip: Vec3 := Vec3(BulbNoseX, 0.0, BulbZCenter)
  const DeckTip: Vec3 := Vec3(DeckTipX, 0.0, Depth)

  /** The vertex list: the ribs in order, then the two nose tips. */
  function HullVerts(c: Curves, st: seq<real>): seq<Vec3>
    requires forall k :: 0 <= k < |st| ==> 0.0 <= st[k]
  {
    Flatten(Profiles(c, st)) + [NoseTip, DeckTip]
  }

  /** The vertex indices of rib i. */
  function RowOf(i: nat): seq<nat>
  {
    seq(RibSize, k requires 0 <= k < RibSize => RibSize * i + k)
  }

  /** The skin quad between point j of rib i and point j + 1, bridging to
      rib i + 1: (r1[j], r1[j+1], r2[j+1], r2[j]). */
  function SkinQuad(i: nat, j: nat): Face
  {
    [RibSize * i + j, RibSize * i + j + 1, RibSize * (i + 1) + j + 1, RibSize * (i + 1) + j]
  }

  /** The quads bridging rib i to rib i + 1. */
  function BridgeRow(i: nat): seq<Face>
  {
    seq(RibSize - 1, j requires 0 <= j < RibSize - 1 => SkinQuad(i, j))
  }

  /** The quads of the first m bridges. */
  function SkinQuads(m: nat): seq<Face>
  {
    if m == 0 then [] else SkinQuads(m - 1) + BridgeRow(m - 1)
  }

  /** The nose faces over the last of count ribs: a fan of three triangles
      from the keel to the neck onto the bulb tip, the keyhole quad and the
      deck triangle onto the deck tip. */
  function NoseFaces(count: nat): seq<Face>
    requires count >= 1
  {
    var t := RibSize * (count - 1);
    var tip := RibSize * count;
    var top := tip + 1;
    [[t, t + 1, tip], [t + 1, t + 2, tip], [t + 2, t + 3, tip], [t + 3, t + 4, top, tip], [t + 4, t + 5, top]]
  }

  /** The face list for count ribs: skin, nose, then the transom hexagon. */
  function HullFaces(count: nat): seq<Face>
    requires count >= 1
  {
    SkinQuads(count - 1) + NoseFaces(count) + [RowOf(0)]
  }

  /** The inner loop of the vertex loop: add the points of one rib. */
  method AppendRib(prefix: seq<Vec3>, coords: seq<Vec3>) returns (verts: seq<Vec3>, row: seq<nat>)
    ensures verts == prefix + coords
    ensures row == seq(|coords|, k requires 0 <= k < |coords| => |prefix| + k)
  {
    verts := prefix;
    row := [];
    for k := 0 to |coords|
      invariant verts == prefix + coords[..k]
      invariant row == seq(k, m requires 0 <= m < k => |prefix| + m)
    {
      assert coords[..k + 1] == coords[..k] + [coords[k]];
      row := row + [|verts|];
      verts := verts + [coords[k]];
    }
    assert coords[..|coords|] == coords;
  }

  /** The vertex loop: one rib per station, recording each rib's indices. */
  method LoftVertices(c: Curves, st: seq<real>) returns (verts: seq<Vec3>, rows: seq<seq<nat>>)
    requires forall k :: 0 <= k < |st| ==> 0.0 <= st[k]
    ensures verts == Flatten(Profiles(c, st))
    ensures |rows| == |st| && forall i :: 0 <= i < |rows| ==> rows[i] == RowOf(i)
  {
    ghost var ps := Profiles(c, st);
    verts := [];
    rows := [];
    for i := 0 to |st|
      invariant verts == Flatten(ps[..i])
      invariant |verts| == RibSize * i
      invariant |rows| == i && forall a :: 0 <= a < i ==> rows[a] == RowOf(a)
    {
      var coords := ProfileVerts(c, st[i]);
      assert coords == ps[i];
      ghost var before := verts;
      var row;
      verts, row := AppendRib(verts, coords);
      assert verts == Flatten(ps[..i + 1]) by {
        assert ps[..i + 1] == ps[..i] + [ps[i]];
        FlattenSnoc(ps[..i], ps[i]);
      }
      assert row == RowOf(i) by {
        assert |before| == RibSize * i && |coords| == RibSize;
      }
      rows := rows + [row];
    }
    assert ps[..|st|] == ps;
  }

  /** The inner skinning loop: the quads bridging two consecutive ribs. */
  method AppendBridge(start: seq<Face>, i: nat, r1: seq<nat>, r2: seq<nat>) returns (faces: seq<Face>)
    requires r1 == RowOf(i) && r2 == RowOf(i + 1)
    ensures faces == start + BridgeRow(i)
  {
    faces := start;
    ghost var bridge := BridgeRow(i);
    for j := 0 to |r1| - 1
      invariant faces == start + bridge[..j]
    {
      var v1 := r1[j];
      var v2 := r1[j + 1];
      var v3 := r2[j + 1];
      var v4 := r2[j];
      assert [v1, v2, v3, v4] == bridge[j];
      assert bridge[..j + 1] == bridge[..j] + [bridge[j]];
      faces := faces + [[v1, v2, v3, v4]];
    }
    assert bridge[..RibSize - 1] == bridge;
  }

  /** The skinning loop over consecutive pairs of ribs. */
  method Skin(rows: seq<seq<nat>>) returns (faces: seq<Face>)
    requires |rows| >= 1 && forall i :: 0 <= i < |rows| ==> rows[i] == RowOf(i)
    ensures faces == SkinQuads(|rows| - 1)
  {
    faces := [];
    for i := 0 to |rows| - 1
      invariant faces == SkinQuads(i)
    {
      faces := AppendBridge(faces, i, rows[i], rows[i + 1]);
    }
  }

  /** create_hull_subd up to bm.to_mesh, for a list of stations: ribs,
      skin, the two nose tips and nose faces, and the transom hexagon. An
      empty station list fails at rows[-1]. */
  method BuildHull(c: Curves, st: seq<real>) returns (verts: seq<Vec3>, faces: seq<Face>)
    requires |st| >= 1 && forall k :: 0 <= k < |st| ==> 0.0 <= st[k]
    ensures verts == HullVerts(c, st)
    ensures faces == HullFaces(|st|)
  {
    var rows;
    verts, rows := LoftVertices(c, st);
    FlattenLength(Profiles(c, st), RibSize);
    faces := Skin(rows);
    var lastRow := rows[|rows| - 1];
    var tip := |verts|;
    verts := verts + [Vec3(BulbNoseX, 0.0, BulbZCenter)];
    var topTip := |verts|;
    verts := verts + [Vec3(DeckTipX, 0.0, Depth)];
    faces := faces + [[lastRow[0], lastRow[1], tip]];
    faces := faces + [[lastRow[1], lastRow[2], tip]];
    faces := faces + [[lastRow[2], lastRow[3], tip]];
    faces := faces + [[lastRow[3], lastRow[4], topTip, tip]];
    faces := faces + [[lastRow[4], lastRow[5], topTip]];
    var firstRow := rows[0];
    faces := faces + [[firstRow[0], firstRow[1], firstRow[2], firstRow[3], firstRow[4], firstRow[5]]];
    assert [firstRow[0], firstRow[1], firstRow[2], firstRow[3], firstRow[4], firstRow[5]] == RowOf(0);
  }

  /** create_hull_subd with its own stations. */
  method SubdHull(c: Curves) returns (verts: seq<Vec3>, faces: seq<Face>)
    ensures verts == HullVerts(c, Stations)
    ensures faces == HullFaces(|Stations|)
  {
    verts, faces := BuildHull(c, Stations);
  }

  /** Point j of the rib at station i is vertex 6 i + j; the two nose tips
      follow the last rib. */
  lemma HullVertsLayout(c: Curves, st: seq<real>, i: nat, j: nat)
    requires forall k :: 0 <= k < |st| ==> 0.0 <= st[k]
    requires i < |st| && j < RibSize
    ensures |HullVerts(c, st)| == RibSize * |st| + 2
    ensures RibSize * i + j < RibSize * |st|
    ensures HullVerts(c, st)[RibSize * i + j] == ProfileVerts(c, st[i])[j]
    ensures HullVerts(c, st)[RibSize * |st|] == NoseTip
    ensures HullVerts(c, st)[RibSize * |st| + 1] == DeckTip
  {
    var ps := Profiles(c, st);
    FlattenAt(ps, RibSize, i, j);
  }

  /** The first m bridges hold 5 m quads. */
  lemma {:induction false} SkinQuadsLength(m: nat)
    ensures |SkinQuads(m)| == (RibSize - 1) * m
  {
    if m > 0 {
      SkinQuadsLength(m - 1);
    }
  }

  /** Quad 5 i + j of the skin bridges point j of rib i to rib i + 1. */
  lemma {:induction false} SkinQuadsAt(m: nat, i: nat, j: nat)
    requires i < m && j < RibSize - 1
    ensures (RibSize - 1) * i + j < |SkinQuads(m)|
    ensures SkinQuads(m)[(RibSize - 1) * i + j] == SkinQuad(i, j)
  {
    SkinQuadsLength(m);
    SkinQuadsLength(m - 1);
    if i < m - 1 {
      SkinQuadsAt(m - 1, i, j);
    }
  }

  /** Each skin quad has four distinct vertices, all on ribs i and i + 1. */
  lemma SkinQuadGood(i: nat, j: nat)
    requires j < RibSize - 1
    ensures |SkinQuad(i, j)| == 4 && DistinctIndices(SkinQuad(i, j))
    ensures FaceWithin(SkinQuad(i, j), RibSize * i, RibSize * (i + 2))
  {
  }

  /** The skin of count ribs addresses only rib vertices. */
  lemma {:induction false} SkinQuadsBelow(m: nat)
    ensures AllFacesBelow(SkinQuads(m), RibSize * (m + 1))
    ensures forall f :: 0 <= f < |SkinQuads(m)| ==> DistinctIndices(SkinQuads(m)[f])
  {
    if m > 0 {
      SkinQuadsBelow(m - 1);
      var br := BridgeRow(m - 1);
      forall j | 0 <= j < |br|
        ensures FaceBelow(br[j], RibSize * (m + 1)) && DistinctIndices(br[j])
      {
        SkinQuadGood(m - 1, j);
      }
    }
  }

  /** For count ribs there are 5 (count - 1) skin quads, five nose faces and
      one transom face; every face has distinct indices below 6 count + 2,
      the size of the vertex list. */
  lemma HullFacesShape(count: nat)
    requires count >= 1
    ensures |HullFaces(count)| == (RibSize - 1) * (count - 1) + 6
    ensures AllFacesBelow(HullFaces(count), RibSize * count + 2)
    ensures forall f :: 0 <= f < |HullFaces(count)| ==> DistinctIndices(HullFaces(count)[f])
  {
    SkinQuadsLength(count - 1);
    SkinQuadsBelow(count - 1);
    var hf := HullFaces(count);
    var m := |SkinQuads(count - 1)|;
    forall f | 0 <= f < |hf|
      ensures FaceBelow(hf[f], RibSize * count + 2) && DistinctIndices(hf[f])
    {
      if f < m {
        assert hf[f] == SkinQuads(count - 1)[f];
      } else if f < m + 5 {
        assert hf[f] == NoseFaces(count)[f - m];
      } else {
        assert hf[f] == RowOf(0);
      }
    }
  }

  /** Neighbouring skin quads traverse their shared edges in opposite
      directions: the edge between points j + 1 of ribs i and i + 1, and
      the edge of rib i + 1 between points j and j + 1. */
  lemma SkinConsistent(i: nat, j: nat)
    requires j < RibSize - 1
    ensures j + 1 < RibSize - 1 ==>
      var a := RibSize * i + j + 1;
      var b := RibSize * (i + 1) + j + 1;
      HasEdge(SkinQuad(i, j), a, b) && HasEdge(SkinQuad(i, j + 1), b, a)
    ensures var a := RibSize * (i + 1) + j;
      HasEdge(SkinQuad(i, j), a + 1, a) && HasEdge(SkinQuad(i + 1, j), a, a + 1)
  {
    var q := SkinQuad(i, j);
    var c := RibSize * (i + 1) + j;
    assert q[1] == RibSize * i + j + 1 && q[2] == c + 1 && (1 + 1) % 4 == 2;
    assert q[2] == c + 1 && q[3] == c && (2 + 1) % 4 == 3;
    if j + 1 < RibSize - 1 {
      var q2 := SkinQuad(i, j + 1);
      assert q2[3] == c + 1 && q2[0] == RibSize * i + j + 1 && (3 + 1) % 4 == 0;
    }
    var q3 := SkinQuad(i + 1, j);
    assert q3[0] == c && q3[1] == c + 1 && (0 + 1) % 4 == 1;
  }

  /** The nose faces are wound consistently with the last bridge of skin
      quads and with each other: every edge they share with a skin quad or
      with another nose face is traversed in opposite directions. */
  lemma NoseMatchesSkin(count: nat)
    requires count >= 2
    ensures var t := RibSize * (count - 1);
      var tip := RibSize * count;
      var top := tip + 1;
      var nose := NoseFaces(count);
      var s := count - 2;
      && HasEdge(nose[0], t, t + 1) && HasEdge(SkinQuad(s, 0), t + 1, t)
      && HasEdge(nose[1], t + 1, t + 2) && HasEdge(SkinQuad(s, 1), t + 2, t + 1)
      && HasEdge(nose[2], t + 2, t + 3) && HasEdge(SkinQuad(s, 2), t + 3, t + 2)
      && HasEdge(nose[3], t + 3, t + 4) && HasEdge(SkinQuad(s, 3), t + 4, t + 3)
      && HasEdge(nose[4], t + 4, t + 5) && HasEdge(SkinQuad(s, 4), t + 5, t + 4)
      && HasEdge(nose[0], t + 1, tip) && HasEdge(nose[1], tip, t + 1)
      && HasEdge(nose[1], t + 2, tip) && HasEdge(nose[2], tip, t + 2)
      && HasEdge(nose[2], t + 3, tip) && HasEdge(nose[3], tip, t + 3)
      && HasEdge(nose[3], t + 4, top) && HasEdge(nose[4], top, t + 4)
  {
    var t := RibSize * (count - 1);
    var tip := RibSize * count;
    var nose := NoseFaces(count);
    var s := count - 2;
    assert RibSize * (s + 1) == t;
    forall j | 0 <= j < RibSize - 1
      ensures HasEdge(SkinQuad(s, j), t + j + 1, t + j)
    {
      var q := SkinQuad(s, j);
      assert q[2] == t + j + 1 && q[3] == t + j && (2 + 1) % 4 == 3;
    }
    assert nose[0][0] == t && nose[0][1] == t + 1 && (0 + 1) % 3 == 1;
    assert nose[0][1] == t + 1 && nose[0][2] == tip && (1 + 1) % 3 == 2;
    assert nose[1][0] == t + 1 && nose[1][1] == t + 2 && (0 + 1) % 3 == 1;
    assert nose[1][1] == t + 2 && nose[1][2] == tip && (1 + 1) % 3 == 2;
    assert nose[1][2] == tip && nose[1][0] == t + 1 && (2 + 1) % 3 == 0;
    assert nose[2][0] == t + 2 && nose[2][1] == t + 3 && (0 + 1) % 3 == 1;
    assert nose[2][1] == t + 3 && nose[2][2] == tip && (1 + 1) % 3 == 2;
    assert nose[2][2] == tip && nose[2][0] == t + 2 && (2 + 1) % 3 == 0;
    assert nose[3][0] == t + 3 && nose[3][1] == t + 4 && (0 + 1) % 4 == 1;
    assert nose[3][1] == t + 4 && nose[3][2] == tip + 1 && (1 + 1) % 4 == 2;
    assert nose[3][3] == tip && nose[3][0] == t + 3 && (3 + 1) % 4 == 0;
    assert nose[4][0] == t + 4 && nose[4][1] == t + 5 && (0 + 1) % 3 == 1;
    assert nose[4][2] == tip + 1 && nose[4][0] == t + 4 && (2 + 1) % 3 == 0;
  }

  /** The transom hexagon runs along the first rib in the same direction as
      the first skin quad (edge 0 -> 1 in both), so the cage as built is not
      consistently wound at the stern; the normal recalculation that
      create_hull_subd runs afterwards is what orients it. */
  lemma TransomRunsWithSkin(count: nat)
    requires count >= 2
    ensures HasEdge(HullFaces(count)[|HullFaces(count)| - 1], 0, 1)
    ensures HasEdge(SkinQuad(0, 0), 0, 1)
    ensures HullFaces(count)[0] == SkinQuad(0, 0)
  {
    SkinQuadsAt(count - 1, 0, 0);
    var tr := RowOf(0);
    assert HullFaces(count)[|HullFaces(count)| - 1] == tr;
    assert tr[0] == 0 && tr[1] == 1 && (0 + 1) % 6 == 1;
    var q := SkinQuad(0, 0);
    assert q[0] == 0 && q[1] == 1 && (0 + 1) % 4 == 1;
  }
}
