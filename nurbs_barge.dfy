/** The NURBS barge of create_nurbs_barge (blender_nurbs_barge.py): an
    envelope (half breadth, keel rise, deck sheer and bilge radius) as a
    function of x, a U-shaped section sampled at num_points_v parameters
    (flat bottom, quarter-circle bilge, vertical side), and the u-major
    assignment of control points (x, y, z, 1) to the spline. The Blender
    primitive, its subdivision and the mirror modifier are not modelled. */
module NurbsBarge {
  import opened Mesh
  import opened Curves
  import opened RealArith

  const Length: real := 135.0
  const Beam: real := 14.2
  const Height: real := 4.0
  const BilgeRadius: real := 0.8
  const HalfBeam: real := Beam / 2.0

  /** The x of each U row of control points. */
  const XCoords: seq<real> := [0.0, 2.0, 8.0, 20.0, 45.0, 90.0, 115.0, 125.0, 132.0, 135.0]

  /** A control point in homogeneous coordinates. */
  datatype ControlPoint = ControlPoint(x: real, y: real, z: real, w: real)

  /** The width factor: a square-root taper over the first 20 m, a 1.5-power
      taper beyond x = 115, 1 in between. Negative x is outside its domain
      (the square root of a negative number). */
  function WidthFactor(c: Curves, x: real): real
    requires 0.0 <= x
  {
    if x < 20.0 then 0.6 + 0.4 * c.sqrt(x / 20.0)
    else if x > 115.0 then 1.0 - 0.9 * c.pow15((x - 115.0) / 20.0)
    else 1.0
  }

  /** The half breadth at x. */
  function SectionHalfBeam(c: Curves, x: real): real
    requires 0.0 <= x
  {
    HalfBeam * WidthFactor(c, x)
  }

  /** The keel rise of the stern tunnel: 1.8 ((25 - x) / 25)^2 before x = 25. */
  function KeelZ(x: real): real
  {
    if x < 25.0 then 1.8 * (((25.0 - x) / 25.0) * ((25.0 - x) / 25.0)) else 0.0
  }

  /** The deck height: H plus a sheer at the stern (x < 10) and at the bow
      (x > 120). */
  function DeckZ(x: real): real
  {
    var stern := if x < 10.0 then 0.5 * (((10.0 - x) / 10.0) * ((10.0 - x) / 10.0)) else 0.0;
    var bow := if x > 120.0 then 1.0 * (((x - 120.0) / 15.0) * ((x - 120.0) / 15.0)) else 0.0;
    Height + stern + bow
  }

  /** The bilge radius: R, or 0.9 of the half breadth where that is smaller. */
  function EffRadius(c: Curves, x: real): real
    requires 0.0 <= x
  {
    var hb := SectionHalfBeam(c, x);
    if BilgeRadius <= hb * 0.9 then BilgeRadius else hb * 0.9
  }

  /** The envelope of the section at one x: half breadth, bilge radius,
      keel height and deck height. */
  datatype Envelope = Envelope(hb: real, r: real, keel: real, deck: real)

  function EnvelopeAt(c: Curves, x: real): Envelope
    requires 0.0 <= x
  {
    Envelope(SectionHalfBeam(c, x), EffRadius(c, x), KeelZ(x), DeckZ(x))
  }

  /** The section point (y, z) of envelope e at parameter t in [0, 1],
      interpolated between the key points (0, keel), (hb - r, keel),
      (hb, keel + r) and (hb, deck): the bottom for t < 0.3, the bilge arc for t < 0.6, the side above. The arc
      angle runs from -pi/2 to 0; cos(-pi/2 + u pi/2) and sin(-pi/2 + u pi/2)
      are written as sinQ(u) and -cosQ(u). */
  function SectionPoint(c: Curves, e: Envelope, t: real): (real, real)
  {
    if t < 0.3 then
      var lt := t / 0.3;
      (Lerp(0.0, e.hb - e.r, lt), Lerp(e.keel, e.keel, lt))
    else if t < 0.6 then
      var lt := (t - 0.3) / 0.3;
      (ArcY(c, e.hb - e.r, e.r, lt), ArcZ(c, e.keel + e.r, e.r, lt))
    else
      var lt := (t - 0.6) / 0.4;
      (Lerp(e.hb, e.hb, lt), Lerp(e.keel + e.r, e.deck, lt))
  }

  /** The bilge arc about centre (cy, cz) with radius r, at the fraction u
      of its quarter turn from the bottom to the side. */
  function ArcY(c: Curves, cy: real, r: real, u: real): real
  {
    cy + c.sinQ(u) * r
  }

  function ArcZ(c: Curves, cz: real, r: real, u: real): real
  {
    cz - c.cosQ(u) * r
  }

  /** The point a fraction s of the way from a to b. */
  function Lerp(a: real, b: real, s: real): real
  {
    a + (b - a) * s
  }

  /** The section point at x and parameter t. */
  function ProfileAt(c: Curves, x: real, t: real): (real, real)
    requires 0.0 <= x
  {
    SectionPoint(c, EnvelopeAt(c, x), t)
  }

  /** The parameter of sample i of n: i / (n - 1). */
  function SampleT(i: nat, n: nat): real
    requires n != 1
  {
    i as real / (n as real - 1.0)
  }

  /** The n section points at x (get_section_profile). One sample divides by
      zero, hence n != 1. */
  function SectionProfile(c: Curves, x: real, n: nat): (ps: seq<(real, real)>)
    requires 0.0 <= x && n != 1
    ensures |ps| == n
  {
    seq(n, i requires 0 <= i < n => ProfileAt(c, x, SampleT(i, n)))
  }

  /** get_section_profile: the envelope, then n samples at t = i / (n - 1). */
  method GetSectionProfile(c: Curves, x: real, n: nat) returns (points: seq<(real, real)>)
    requires 0.0 <= x && n != 1
    ensures points == SectionProfile(c, x, n)
  {
    var widthFac := 1.0;
    if x < 20.0 {
      var t := x / 20.0;
      widthFac := 0.6 + 0.4 * c.sqrt(t);
    } else if x > 115.0 {
      var t := (x - 115.0) / 20.0;
      widthFac := 1.0 - 0.9 * c.pow15(t);
    }
    var hb := HalfBeam * widthFac;
    var keelZ := 0.0;
    if x < 25.0 {
      var t := (25.0 - x) / 25.0;
      keelZ := 1.8 * (t * t);
    }
    var deckZ := Height;
    if x < 10.0 {
      deckZ := deckZ + 0.5 * (((10.0 - x) / 10.0) * ((10.0 - x) / 10.0));
    }
    if x > 120.0 {
      deckZ := deckZ + 1.0 * (((x - 120.0) / 15.0) * ((x - 120.0) / 15.0));
    }
    var r := if BilgeRadius <= hb * 0.9 then BilgeRadius else hb * 0.9;
    assert Envelope(hb, r, keelZ, deckZ) == EnvelopeAt(c, x);
    points := SampleSection(c, x, n, hb, r, keelZ, deckZ);
  }

  /** The sampling loop of get_section_profile over the envelope computed at
      its head: sample i is the section point at t = i / (n - 1). */
  method SampleSection(c: Curves, x: real, n: nat, hb: real, r: real, keelZ: real, deckZ: real)
    returns (points: seq<(real, real)>)
    requires 0.0 <= x && n != 1
    requires Envelope(hb, r, keelZ, deckZ) == EnvelopeAt(c, x)
    ensures points == SectionProfile(c, x, n)
  {
    ghost var e := Envelope(hb, r, keelZ, deckZ);
    points := [];
    for i := 0 to n
      invariant points == SectionProfile(c, x, n)[..i]
    {
      var t := i as real / (n as real - 1.0);
      var y, z;
      if t < 0.3 {
        var lt := t / 0.3;
        y, z := Lerp(0.0, hb - r, lt), Lerp(keelZ, keelZ, lt);
      } else if t < 0.6 {
        var lt := (t - 0.3) / 0.3;
        y, z := ArcY(c, hb - r, r, lt), ArcZ(c, keelZ + r, r, lt);
      } else {
        var lt := (t - 0.6) / 0.4;
        y, z := Lerp(hb, hb, lt), Lerp(keelZ + r, deckZ, lt);
      }
      assert t == SampleT(i, n) && (y, z) == SectionPoint(c, e, t);
      points := points + [(y, z)];
    }
  }

  /** The control points of one U row: (x, y, z, 1) for each section point. */
  function RowPoints(x: real, sp: seq<(real, real)>): (row: seq<ControlPoint>)
    ensures |row| == |sp|
  {
    seq(|sp|, v requires 0 <= v < |sp| => ControlPoint(x, sp[v].0, sp[v].1, 1.0))
  }

  /** The control points row by row: row u holds the section at XCoords[u]. */
  function ControlRows(c: Curves, uCount: nat, vCount: nat): (rows: seq<seq<ControlPoint>>)
    requires uCount <= |XCoords| && (uCount == 0 || vCount != 1)
    ensures |rows| == uCount && Rectangular(rows, vCount)
  {
    seq(uCount, u requires 0 <= u < uCount => RowPoints(XCoords[u], SectionProfile(c, XCoords[u], vCount)))
  }

  /** The inner assignment loop: the section points of one U row go, as
      (x, y, z, 1), to idx, idx + 1, ... */
  method AssignSection(points: array<ControlPoint>, idx: nat, x: real, sectionPts: seq<(real, real)>)
    requires idx + |sectionPts| <= points.Length
    modifies points
    ensures points[..idx] == old(points[..idx])
    ensures points[idx..idx + |sectionPts|] == RowPoints(x, sectionPts)
    ensures points[idx + |sectionPts|..] == old(points[idx + |sectionPts|..])
  {
    ghost var row := RowPoints(x, sectionPts);
    for v := 0 to |sectionPts|
      invariant points[..idx] == old(points[..idx])
      invariant points[idx + |sectionPts|..] == old(points[idx + |sectionPts|..])
      invariant points[idx..idx + v] == row[..v]
    {
      var (y, z) := sectionPts[v];
      points[idx + v] := ControlPoint(x, y, z, 1.0);
      assert points[idx..idx + v + 1] == points[idx..idx + v] + [points[idx + v]];
      assert row[..v + 1] == row[..v] + [row[v]];
    }
  }

  /** Writing row u after the first u rows extends the flattened prefix. */
  lemma AssignStep(a: seq<ControlPoint>, rows: seq<seq<ControlPoint>>, u: nat, idx: nat)
    requires u < |rows| && idx + |rows[u]| <= |a|
    requires a[..idx] == Flatten(rows[..u]) && a[idx..idx + |rows[u]|] == rows[u]
    ensures a[..idx + |rows[u]|] == Flatten(rows[..u + 1])
  {
    assert a[..idx + |rows[u]|] == a[..idx] + a[idx..idx + |rows[u]|];
    assert rows[..u + 1] == rows[..u] + [rows[u]];
    FlattenSnoc(rows[..u], rows[u]);
  }

  /** The assignment loop: every control point of the u_count x v_count
      spline, u-major with a running index, is set to (x, y, z, 1). The
      station list has ten entries, so a longer U direction fails. */
  method ShapeSurface(c: Curves, points: array<ControlPoint>, uCount: nat, vCount: nat)
    requires uCount <= |XCoords| && (uCount == 0 || vCount != 1)
    requires points.Length == uCount * vCount
    modifies points
    ensures points[..] == Flatten(ControlRows(c, uCount, vCount))
  {
    ghost var rows := ControlRows(c, uCount, vCount);
    var idx: nat := 0;
    for u := 0 to uCount
      invariant idx == u * vCount
      invariant idx <= points.Length
      invariant points[..idx] == Flatten(rows[..u])
    {
      var x := XCoords[u];
      var sectionPts := GetSectionProfile(c, x, vCount);
      NextRowFits(u, vCount, uCount);
      AssignSection(points, idx, x, sectionPts);
      AssignStep(points[..], rows, u, idx);
      idx := idx + vCount;
    }
    assert rows[..uCount] == rows;
  }

  /** Row u + 1 of a u_count x v_count grid ends within the grid. */
  lemma NextRowFits(u: nat, vCount: nat, uCount: nat)
    requires u < uCount
    ensures (u + 1) * vCount == u * vCount + vCount <= uCount * vCount
  {
    var d: nat := uCount - (u + 1);
    assert uCount * vCount == (u + 1) * vCount + d * vCount;
  }

  /** Control point u * v_count + v is (XCoords[u], y, z, 1) for sample v of
      the section at XCoords[u]. */
  lemma ControlPointAt(c: Curves, uCount: nat, vCount: nat, u: nat, v: nat)
    requires uCount <= |XCoords| && vCount != 1
    requires u < uCount && v < vCount
    ensures |Flatten(ControlRows(c, uCount, vCount))| == uCount * vCount
    ensures u * vCount + v < uCount * vCount
    ensures var p := ProfileAt(c, XCoords[u], SampleT(v, vCount));
      Flatten(ControlRows(c, uCount, vCount))[u * vCount + v] == ControlPoint(XCoords[u], p.0, p.1, 1.0)
  {
    FlattenAt(ControlRows(c, uCount, vCount), vCount, u, v);
    RowMajorBound(u, v, vCount, uCount);
  }

  /** Ten U stations, increasing from the transom at 0 to the bow at L. */
  lemma XCoordsIncreasing()
    ensures |XCoords| == 10 && XCoords[0] == 0.0 && XCoords[9] == Length
    ensures forall a, b :: 0 <= a < b < |XCoords| ==> XCoords[a] < XCoords[b]
  {
  }

  /** The width factor is 1 over the parallel body 20 <= x <= 115. */
  lemma WidthFactorParallel(c: Curves, x: real)
    requires 20.0 <= x <= 115.0
    ensures WidthFactor(c, x) == 1.0
  {
  }

  /** Towards the stern the width factor lies in [0.6, 1], 0.6 at the transom. */
  lemma WidthFactorStern(c: Curves, x: real)
    requires Valid(c) && 0.0 <= x < 20.0
    ensures 0.6 <= WidthFactor(c, x) <= 1.0
    ensures x == 0.0 ==> WidthFactor(c, x) == 0.6
  {
    assert 0.0 <= x / 20.0 <= 1.0;
    if x == 0.0 {
      assert x / 20.0 == 0.0;
    }
  }

  /** Towards the bow the width factor lies in [0.1, 1], 0.1 at x = 135. */
  lemma WidthFactorBow(c: Curves, x: real)
    requires Valid(c) && 115.0 < x <= Length
    ensures 0.1 <= WidthFactor(c, x) <= 1.0
    ensures x == Length ==> WidthFactor(c, x) == 0.1
  {
    var t := (x - 115.0) / 20.0;
    assert 0.0 <= t <= 1.0;
    assert 0.0 <= c.pow15(t) <= 1.0;
    if x == Length {
      assert t == 1.0;
    }
  }

  /** The keel rises to 1.8 at the transom, stays within [0, 1.8], and is
      flat (0) from x = 25 on. */
  lemma KeelRise(x: real)
    requires 0.0 <= x
    ensures 0.0 <= KeelZ(x) <= 1.8
    ensures x == 0.0 ==> KeelZ(x) == 1.8
    ensures x >= 25.0 ==> KeelZ(x) == 0.0
  {
    if x < 25.0 {
      var t := (25.0 - x) / 25.0;
      assert 0.0 < t <= 1.0;
      assert t * t <= t;
    }
  }

  /** The deck never dips below H and is exactly H for 10 <= x <= 120. */
  lemma DeckSheer(x: real)
    ensures DeckZ(x) >= Height
    ensures 10.0 <= x <= 120.0 ==> DeckZ(x) == Height
  {
  }

  /** Over the hull (0 <= x <= L) the bilge radius is positive and at most
      the half breadth less a tenth, so the flat bottom has non-negative
      width hb - r. */
  lemma RadiusFits(c: Curves, x: real)
    requires Valid(c) && 0.0 <= x <= Length
    ensures 0.0 < EffRadius(c, x) <= BilgeRadius
    ensures EffRadius(c, x) <= 0.9 * SectionHalfBeam(c, x)
    ensures SectionHalfBeam(c, x) - EffRadius(c, x) >= 0.0
  {
    HalfBeamBounds(c, x);
  }

  /** Over the hull the half breadth lies between 0.1 HalfB and HalfB. */
  lemma HalfBeamBounds(c: Curves, x: real)
    requires Valid(c) && 0.0 <= x <= Length
    ensures 0.1 * HalfBeam <= SectionHalfBeam(c, x) <= HalfBeam
  {
    if x < 20.0 {
      WidthFactorStern(c, x);
    } else if x > 115.0 {
      WidthFactorBow(c, x);
    }
  }

  /** The first sample (t = 0) is the keel point (0, keel_z). */
  lemma FirstPointOnKeel(c: Curves, x: real, n: nat)
    requires 0.0 <= x && n >= 2
    ensures SectionProfile(c, x, n)[0] == (0.0, KeelZ(x))
  {
    assert SampleT(0, n) == 0.0;
  }

  /** The last sample (t = 1) is the deck edge (hb, deck_z). */
  lemma LastPointAtDeck(c: Curves, x: real, n: nat)
    requires 0.0 <= x && n >= 2
    ensures SectionProfile(c, x, n)[n - 1] == (SectionHalfBeam(c, x), DeckZ(x))
  {
    var d := n as real - 1.0;
    assert (n - 1) as real == d && d > 0.0;
    assert SampleT(n - 1, n) == d / d == 1.0;
  }

  /** Bottom samples (t < 0.3) lie on the keel line between the centre
      plane and the start of the bilge. */
  lemma BottomSegment(c: Curves, x: real, t: real)
    requires Valid(c) && 0.0 <= x <= Length && 0.0 <= t < 0.3
    ensures ProfileAt(c, x, t).1 == KeelZ(x)
    ensures 0.0 <= ProfileAt(c, x, t).0 <= SectionHalfBeam(c, x) - EffRadius(c, x)
  {
    RadiusFits(c, x);
    BottomOfEnvelope(c, EnvelopeAt(c, x), t);
  }

  lemma BottomOfEnvelope(c: Curves, e: Envelope, t: real)
    requires 0.0 <= e.r <= e.hb && 0.0 <= t < 0.3
    ensures SectionPoint(c, e, t).1 == e.keel
    ensures 0.0 <= SectionPoint(c, e, t).0 <= e.hb - e.r
  {
    var lt := t / 0.3;
    assert 0.0 <= lt <= 1.0;
    var w := e.hb - e.r;
    ScaledWithin(w, lt);
    assert Lerp(0.0, w, lt) == w * lt;
  }

  /** Bilge samples (0.3 <= t < 0.6) lie in the box spanned by the arc from
      (hb - r, keel_z) to (hb, keel_z + r). */
  lemma BilgeSegment(c: Curves, x: real, t: real)
    requires Valid(c) && 0.0 <= x <= Length && 0.3 <= t < 0.6
    ensures var p := ProfileAt(c, x, t);
      var hb := SectionHalfBeam(c, x);
      var r := EffRadius(c, x);
      && hb - r <= p.0 <= hb
      && KeelZ(x) <= p.1 <= KeelZ(x) + r
  {
    RadiusFits(c, x);
    BilgeOfEnvelope(c, EnvelopeAt(c, x), t);
  }

  lemma BilgeOfEnvelope(c: Curves, e: Envelope, t: real)
    requires Valid(c) && 0.0 <= e.r && 0.3 <= t < 0.6
    ensures var p := SectionPoint(c, e, t);
      && e.hb - e.r <= p.0 <= e.hb
      && e.keel <= p.1 <= e.keel + e.r
  {
    var lt := (t - 0.3) / 0.3;
    assert 0.0 <= lt <= 1.0;
    var y, z := ArcY(c, e.hb - e.r, e.r, lt), ArcZ(c, e.keel + e.r, e.r, lt);
    assert SectionPoint(c, e, t) == (y, z);
    ArcWithin(e.hb - e.r, e.keel + e.r, e.r, c.sinQ(lt), c.cosQ(lt), y, z);
  }

  /** A point (y, z) of the arc about (cy, cz) of radius r, at sine s and
      cosine k in [0, 1], lies in the box [cy, cy + r] x [cz - r, cz]. */
  lemma ArcWithin(cy: real, cz: real, r: real, s: real, k: real, y: real, z: real)
    requires 0.0 <= r && 0.0 <= s <= 1.0 && 0.0 <= k <= 1.0
    requires y == cy + s * r && z == cz - k * r
    ensures cy <= y <= cy + r
    ensures cz - r <= z <= cz
  {
    ScaledWithin(r, s);
    ScaledWithin(r, k);
  }

  /** Side samples (t >= 0.6) stand at the full half breadth. */
  lemma SideSegment(c: Curves, x: real, t: real)
    requires 0.0 <= x && 0.6 <= t
    ensures ProfileAt(c, x, t).0 == SectionHalfBeam(c, x)
  {
  }

  /** The three pieces join: the bottom ends where the arc starts, and the
      arc ends where the side starts. */
  lemma SegmentsJoin(c: Curves, x: real)
    requires Valid(c) && 0.0 <= x
    ensures var hb := SectionHalfBeam(c, x);
      var r := EffRadius(c, x);
      && ProfileAt(c, x, 0.3) == (hb - r, KeelZ(x))
      && ProfileAt(c, x, 0.6) == (hb, KeelZ(x) + r)
  {
    assert (0.3 - 0.3) / 0.3 == 0.0;
    assert (0.6 - 0.6) / 0.4 == 0.0;
  }
}
