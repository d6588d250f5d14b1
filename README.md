# Verified model of the jax-vessels hull generators and hydrostatic checks

The repository prepares ship hulls for CFD runs. It generates the hull surfaces procedurally and checks their floating position before a simulation starts. This project models, in Dafny, the parts of that pipeline that do more than call a library:

- **Hull mesh topology builders.**
  - `grid_to_mesh` and the tanker's bow cap (`generate_hull.py`), in module `GridMesh`. A row-major starboard grid is mirrored into a port half with reversed winding, and a transom closure and an optional bow closure are added.
  - The Wigley hull vertices and faces (`blender_operations.py`), in module `Wigley`.
  - The lofted rib cage of the sub-division tanker (`blender_ship_subd.py`), in module `ShipSubd`.
- **Station profile functions.**
  - The Europe IIa barge section (`generate_hull.py`), in module `EuropeBarge`.
  - The six-point rib of `get_profile_verts`, in module `ShipSubd`.
  - The sampled U-section of `get_section_profile` and the u-major control-point assignment (`blender_nurbs_barge.py`), in module `NurbsBarge`.
- **Hydrostatics downstream of the geometry library.**
  - The cumulative-trapezoid equilibrium water level of `calculate_draft`, in module `Draft`.
  - The divergence-theorem force balance of `verify_hydrostatics`, in module `Hydrostatics`.
  - The configured-versus-computed draft check of the analysis script, in module `DraftCheck`.
- **The hull report** of `verify_hull`, in module `HullReport`. It combines integrity flags and relative dimension tolerances into APPROVED or REJECTED.

Shared modules:

- `Mesh` holds vertices, faces, row-major flattening and directed edges.
- `Curves` holds the fractional powers and sin/cos as total functions constrained only by the bounds the proofs need.
- `Wrappers` holds `Option`.
- `RealArith` holds `Abs` and one scaling fact.

Code that grows lists in loops is modelled as methods with loop invariants. Each such method is proved equal to a specification function, and the lemmas state what the source promises about that function. The two in-place array updates work on an `array`: the NURBS control points, and the cumulative `volumes` of calculate_draft (calculate_draft.py:61-65). Floats are `real`.

Points where the code does something other than its comments or a reader might expect; the model follows the code:

- The NURBS section has three zones split at t = 0.3 and t = 0.6 (blender_nurbs_barge.py:139-156), while the comments just above (blender_nurbs_barge.py:123-125) give the zones as 0.0-0.4, 0.4-0.6 and 0.6-1.0. The section ends at the deck edge (hb, deck_z).
- `grid_to_mesh` does not produce a closed or shared-vertex mesh. The deck is never capped, and centreline vertices are duplicated, not shared (generate_hull.py:356-362). No closure property is claimed.
- `calculate_draft` reports an out-of-range target only by printing. It returns z_min or z_max (calculate_draft.py:78-83).
- The comment on the ship cage's transom hexagon (blender_ship_subd.py:203) says its 0->1->...->5 winding, seen from behind, gives the proper normal. The hexagon runs edge 0->1 in the same direction as the first skin quad, so the cage as built is not consistently wound at the stern (`ShipSubd.TransomRunsWithSkin`). Only the normal recalculation at blender_ship_subd.py:240 orients it.
- The analysis script turns a draft outside the tolerance into exit status 1 (scripts/analysis/verify_hydrostatics.py:88-91).

## Model

| member | source | states |
|---|---|---|
| Mesh.FlattenAt | examples/scripts/generate_hull.py:335-341 | entry (i, j) of a rectangular grid of width w is element i*w+j of its row-major flattening, which has \|rows\|*w elements |
| Mesh.FlattenLength | examples/scripts/generate_hull.py:337-341 | flattening a rectangular grid of width w gives \|rows\|*w vertices |
| Mesh.FlattenSnoc | examples/scripts/generate_hull.py:337-341 | appending a row to the grid appends it to the flattening |
| GridMesh.NumberStarboard | examples/scripts/generate_hull.py:335-341 | the vertex list is the grid in row-major order and node_map[(i, j)] == i*(ny+1)+j for every node |
| GridMesh.TriangulateStarboard | examples/scripts/generate_hull.py:343-353 | the starboard face list is two triangles per cell, [p0,p1,p2] then [p0,p2,p3], cells in row-major order |
| GridMesh.MirrorPort | examples/scripts/generate_hull.py:355-362 | port vertices are the starboard ones with y negated, appended once; each starboard face yields exactly one port face [a+n, c+n, b+n] and port faces are not re-mirrored |
| GridMesh.CloseTransom | examples/scripts/generate_hull.py:377-389 | the transom appends [s1,s0,p0] and [s1,p0,p1] for each j < ny on row 0, with p = s + n |
| GridMesh.GridToMesh | examples/scripts/generate_hull.py:326-389 | the returned vertices and faces are exactly GridVerts and GridFaces of the grid |
| GridMesh.GridVertsLayout | examples/scripts/generate_hull.py:332-358 | there are 2n vertices, node (i, j) is vertex i*(ny+1)+j, and vertex k+n is the y-mirror of vertex k |
| GridMesh.GridVertsMirror | examples/scripts/generate_hull.py:354-357 | for a grid of (nx+1) rows of ny+1 points there are 2n vertices, and the last n are the y-mirror images of the first n, in order |
| GridMesh.GridFacesShape | examples/scripts/generate_hull.py:343-389 | there are 4*nx*ny + 2*ny triangles with three distinct indices below 2n; starboard faces use only [0, n) and port faces only [n, 2n) |
| GridMesh.StbdTrisLength | examples/scripts/generate_hull.py:344-353 | the starboard shell has 2*nx*ny triangles |
| GridMesh.StbdTrisAt | examples/scripts/generate_hull.py:344-353 | triangle 2*(i*ny+j)+t of the starboard shell is triangle t of cell (i, j) |
| GridMesh.RowTrisLength | examples/scripts/generate_hull.py:345-353 | one row of j cells gives 2*j triangles |
| GridMesh.RowTrisAt | examples/scripts/generate_hull.py:345-353 | triangle 2*c+t of a row is triangle t of cell c |
| GridMesh.CellTrisGood | examples/scripts/generate_hull.py:346-353 | both triangles of a cell have three distinct starboard indices |
| GridMesh.RowTrisGood | examples/scripts/generate_hull.py:345-353 | every triangle of a row has three distinct starboard indices |
| GridMesh.StbdTrisGood | examples/scripts/generate_hull.py:344-353 | every starboard triangle has three distinct indices below n |
| GridMesh.MirrorFacesGood | examples/scripts/generate_hull.py:360-362 | mirroring starboard triangles with indices in [0, n) gives port triangles with distinct indices in [n, 2n) |
| GridMesh.TransomTrisAt | examples/scripts/generate_hull.py:377-387 | transom triangles 2j and 2j+1 are [s1,s0,s0+n] and [s1,s0+n,s1+n] |
| GridMesh.TransomTrisSnoc | examples/scripts/generate_hull.py:377-387 | one more loop step appends exactly the two triangles of column j |
| GridMesh.TransomTrisGood | examples/scripts/generate_hull.py:377-387 | every transom triangle has three distinct indices below 2n |
| GridMesh.CellDiagonalOpposite | examples/scripts/generate_hull.py:352-353 | the two triangles of a cell run their shared diagonal p0-p2 in opposite directions |
| GridMesh.TriangleEdges | examples/scripts/generate_hull.py:352-353 | a triangle's directed edges are exactly (f0,f1), (f1,f2) and (f2,f0) |
| GridMesh.MirrorReversesEdges | examples/scripts/generate_hull.py:360-362 | a face has edge a->b exactly when its port copy has edge b+n->a+n |
| GridMesh.CapBow | examples/scripts/generate_hull.py:310-322 | the bow cap appends [s0,p0,p1] and [s0,p1,s1] for each j < ny, with s0 = nx*(ny+1)+j and p = s + (nx+1)*(ny+1) |
| GridMesh.TankerMesh | examples/scripts/generate_hull.py:280-324 | the tanker mesh is GridToMesh's output followed by the bow cap |
| GridMesh.BowTrisGood | examples/scripts/generate_hull.py:310-322 | every bow triangle has three distinct indices inside the vertex list |
| GridMesh.TankerFacesShape | examples/scripts/generate_hull.py:280-324 | the capped tanker has 4*nx*ny + 4*ny triangles, each with three distinct indices below 2n |
| GridMesh.BowMatchesHull | examples/scripts/generate_hull.py:310-322 | the bow cap runs each last-row edge opposite to the hull triangle beside it, so its winding agrees with the shell |
| GridMesh.TransomWindingClash | examples/scripts/generate_hull.py:377-387 | as written, the transom triangle and the hull triangle beside it run the same row-0 edge in the same direction, on both halves |
| GridMesh.OrientedTransomMatchesHull | examples/scripts/generate_hull.py:377-387 | the corrected transom runs every row-0 edge opposite to both hull halves, and its two triangles run their shared diagonal in opposite directions |
| GridMesh.OrientedTransomTrisGood | examples/scripts/generate_hull.py:377-387 | every corrected transom triangle has three distinct indices below 2n |
| GridMesh.OrientedGridFacesShape | examples/scripts/generate_hull.py:343-389 | the corrected mesh has the same size and index range as grid_to_mesh's, equals it on both shells, and reverses each transom triangle |
| EuropeBarge.SectionRow | examples/scripts/generate_hull.py:69-134 | the girth loop, with eff_w, the clamped radius and the zone choice computed inline, gives ny+1 points, point j being SectionPoint j: the bottom, bilge or side formula (BottomPoint, BilgePoint, SidePoint) for t = j/ny, over EffHalfBeam and EffBilgeRadius; SectionWithinHalfBeam, SideAtFullBeam and KeelPointOnCentrePlane state what these points are |
| EuropeBarge.BargeGrid | examples/scripts/generate_hull.py:52-135 | the grid has nx+1 rows of ny+1 points, point (i, j) being the section point of station x = i*L/nx over the keel KeelHeight(x), which KeelHeightBounds and KeelHeightEnds bound |
| EuropeBarge.EuropeBargeMesh | examples/scripts/generate_hull.py:34-137 | the barge mesh has 2n vertices: node (i, j) at index i*(ny+1)+j holds its grid point, the last n vertices are the y-mirror images of the first n, and the faces are grid_to_mesh's face list |
| EuropeBarge.KeelFlatAmidships | examples/scripts/generate_hull.py:59-67 | z_bottom is 0 for rake_len <= x <= L - rake_len |
| EuropeBarge.KeelHeightBounds | examples/scripts/generate_hull.py:59-67 | over the hull length z_bottom stays within [0, 0.9 D] |
| EuropeBarge.KeelHeightEnds | examples/scripts/generate_hull.py:61-67 | z_bottom is 0.8 D at the stern (x = 0) and 0.9 D at the bow (x = L) |
| EuropeBarge.BilgeRadiusClamped | examples/scripts/generate_hull.py:96-107 | the bilge radius is min(0.5, eff_w), so it never exceeds eff_w; eff_w lies in [0.8 w, w] |
| EuropeBarge.KeelPointOnCentrePlane | examples/scripts/generate_hull.py:117-121 | the j = 0 point is (x, 0, z_bottom) |
| EuropeBarge.SideAtFullBeam | examples/scripts/generate_hull.py:128-132 | side-zone points (t >= 0.6) have y = eff_w, and the last point is at the deck (x, eff_w, D) |
| EuropeBarge.SectionWithinHalfBeam | examples/scripts/generate_hull.py:117-132 | every section point has 0 <= y <= eff_w |
| EuropeBarge.BottomWithin | examples/scripts/generate_hull.py:117-121 | points of the bottom zone have 0 <= y <= eff_w |
| EuropeBarge.BilgeWithin | examples/scripts/generate_hull.py:122-127 | points of the bilge arc have 0 <= y <= eff_w |
| EuropeBarge.ZonesJoin | examples/scripts/generate_hull.py:117-132 | the bottom, bilge and side formulas meet at the zone boundaries |
| EuropeBarge.BowStationBilgeAboveDeck | examples/scripts/generate_hull.py:59-67 | at the bow station the bilge rises above the deck (z > D at j = 9) before the side comes back down to D |
| Wigley.AppendPortRow | scripts/generators/blender_operations.py:156-169 | a port row appends its nz+1 points (x, PortY(x, z), z) and records their indices \|prefix\|+j; PortY is the Wigley formula WigleyOffset clamped at 0, which PortOffsetNonNegative relates to the formula |
| Wigley.AppendStbdRow | scripts/generators/blender_operations.py:175-188 | a starboard row appends its nz+1 points (x, StbdY(x, z), z) and records their indices \|prefix\|+j; StbdY is the negated formula snapped to 0 within 1e-6, which StarboardMirrorsPort relates to the port offset |
| Wigley.AppendSide | scripts/generators/blender_operations.py:154-189 | one side (the port loop or the starboard loop) appends its rows in row-major order, row i holding indices base + i*(nz+1) + j |
| Wigley.WigleyVertices | scripts/generators/blender_operations.py:152-189 | the vertex list is the port block then the starboard block, and the two index tables number them |
| Wigley.AppendSideQuads | scripts/generators/blender_operations.py:193-210 | one side contributes a quad per cell in row-major order, reversed on port |
| Wigley.AppendDeckQuads | scripts/generators/blender_operations.py:212-217 | top_p and top_s are the last vertex of each row, and one deck quad (top_p[i], top_s[i], top_s[i+1], top_p[i+1]) is appended per station gap |
| Wigley.WigleyFaceList | scripts/generators/blender_operations.py:191-217 | the face list is port side quads, starboard side quads, then the deck quads |
| Wigley.WigleyMesh | scripts/generators/blender_operations.py:140-217 | the full vertex and face lists are WigleyVerts and WigleyFaces |
| Wigley.WigleyVertsLayout | scripts/generators/blender_operations.py:152-189 | there are 2*(nx+1)*(nz+1) vertices; port (i, j) is at i*(nz+1)+j and starboard (i, j) is (nx+1)*(nz+1) later, each holding its offset point |
| Wigley.SideBlockAt | scripts/generators/blender_operations.py:155-189 | element i*(nz+1)+j of one side's block is the point of station i and level j |
| Wigley.StationRange | scripts/generators/blender_operations.py:155-156 | x = -L/2 + L*i/nx spans [-L/2, L/2], with the ends at i = 0 and i = nx |
| Wigley.LevelRange | scripts/generators/blender_operations.py:158-159 | z = -T + (T+D_freeboard)*j/nz spans [-T, D_freeboard], with the ends at j = 0 and j = nz |
| Wigley.PortOffsetNonNegative | scripts/generators/blender_operations.py:161-166 | the port half-breadth PortY is never negative, is the formula WigleyOffset where that is >= 0 and 0 elsewhere, and equals the formula inside the hull box |
| Wigley.StarboardMirrorsPort | scripts/generators/blender_operations.py:161-185 | starboard y is the negated port y, or 0 where that is below the snap threshold |
| Wigley.RowQuadsLength | scripts/generators/blender_operations.py:196-210 | one row of j cells gives j quads |
| Wigley.RowQuadsAt | scripts/generators/blender_operations.py:196-210 | quad c of a row is the quad of cell c |
| Wigley.SideQuadsLength | scripts/generators/blender_operations.py:195-210 | one side has nx*nz quads |
| Wigley.SideQuadsAt | scripts/generators/blender_operations.py:195-210 | quad i*nz+j of a side is the quad of cell (i, j) |
| Wigley.WigleyFacesAt | scripts/generators/blender_operations.py:191-210 | there are 2*nx*nz + nx faces: face i*nz+j is the port quad of cell (i, j) and face nx*nz + i*nz+j the starboard one |
| Wigley.WigleyDeckFacesAt | scripts/generators/blender_operations.py:191-217 | deck quad i is face 2*nx*nz + i, after both sides |
| Wigley.PortQuadReversed | scripts/generators/blender_operations.py:202-210 | the port quad is the starboard tuple (v1,v2,v3,v4) reversed |
| Wigley.CellQuadGood | scripts/generators/blender_operations.py:197-210 | a cell quad has four distinct indices inside its side's block |
| Wigley.RowQuadsGood | scripts/generators/blender_operations.py:196-210 | every quad of a row lies inside its side's block |
| Wigley.SideQuadsGood | scripts/generators/blender_operations.py:195-210 | every quad of a side lies inside its side's block |
| Wigley.DeckQuadsGood | scripts/generators/blender_operations.py:212-217 | each deck quad (top_p[i], top_s[i], top_s[i+1], top_p[i+1]) has four distinct indices below len(full_verts) |
| Wigley.WigleyFacesGood | scripts/generators/blender_operations.py:191-217 | port quads use only port vertices, starboard quads only starboard ones, and every face index is < len(full_verts) |
| Wigley.DeckMatchesSides | scripts/generators/blender_operations.py:193-217 | each deck quad runs its top edges opposite to the side quads below them |
| ShipSubd.ProfileVerts | examples/scripts/blender_ship_subd.py:40-124 | every branch returns 6 points at x = x_loc; points 0 and 5 on the centreline and points 4 and 5 at deck height D |
| ShipSubd.ProfileClimbs | examples/scripts/blender_ship_subd.py:52-124 | the z of the six points never decreases from keel to deck centre |
| ShipSubd.ProfileStarboard | examples/scripts/blender_ship_subd.py:52-124 | every rib point has y >= 0 |
| ShipSubd.MidbodyFixed | examples/scripts/blender_ship_subd.py:82-90 | for 60 <= x <= 250 the rib is the fixed midship section with points 2-4 at half_B |
| ShipSubd.SternRunWidth | examples/scripts/blender_ship_subd.py:52-79 | in the stern run points 2-4 share the width half_B*(0.6+0.4*sqrt(x/60)), which lies in [0.6, 1]*half_B |
| ShipSubd.TransomSectionWidth | examples/scripts/blender_ship_subd.py:52-69 | at x = 0 the rib is 0.6*half_B wide |
| ShipSubd.BowTaper | examples/scripts/blender_ship_subd.py:93-106 | in the bow transition the width is half_B*(1-t^2) clamped below at 1.5*bulb_width, and the other points scale with it |
| ShipSubd.BulbFixed | examples/scripts/blender_ship_subd.py:109-124 | from x = 310 on the rib is the fixed keyhole section around the bulb |
| ShipSubd.StationsIncreasing | examples/scripts/blender_ship_subd.py:127-131 | the 10 stations increase strictly from 0 to 322 |
| ShipSubd.Profiles | examples/scripts/blender_ship_subd.py:138-144 | one rib of six points per station |
| ShipSubd.AppendRib | examples/scripts/blender_ship_subd.py:139-144 | a rib appends its points and records their indices \|prefix\|+k |
| ShipSubd.LoftVertices | examples/scripts/blender_ship_subd.py:135-144 | the vertex list is the ribs in station order, row i holding indices 6i..6i+5 |
| ShipSubd.AppendBridge | examples/scripts/blender_ship_subd.py:152-170 | one bridge appends quads (r1[j], r1[j+1], r2[j+1], r2[j]) for j < 5 |
| ShipSubd.Skin | examples/scripts/blender_ship_subd.py:151-170 | skinning all consecutive rib pairs gives the skin quads in order |
| ShipSubd.BuildHull | examples/scripts/blender_ship_subd.py:135-204 | the cage is the ribs plus the two nose tips, with the skin, nose and transom faces |
| ShipSubd.SubdHull | examples/scripts/blender_ship_subd.py:127-204 | the cage built over the source's station list |
| ShipSubd.HullVertsLayout | examples/scripts/blender_ship_subd.py:138-183 | rib point j of station i is vertex 6i+j, followed by the bulb nose tip and the deck nose tip |
| ShipSubd.SkinQuadsLength | examples/scripts/blender_ship_subd.py:151-170 | skinning m station gaps gives 5m quads, (len(stations)-1)*5 in all |
| ShipSubd.SkinQuadsAt | examples/scripts/blender_ship_subd.py:151-170 | skin quad 5i+j is the quad bridging ribs i and i+1 at j |
| ShipSubd.SkinQuadGood | examples/scripts/blender_ship_subd.py:165-170 | each skin quad has four distinct indices from its two ribs |
| ShipSubd.SkinQuadsBelow | examples/scripts/blender_ship_subd.py:151-170 | every skin quad indexes the lofted vertices and has distinct indices |
| ShipSubd.HullFacesShape | examples/scripts/blender_ship_subd.py:151-204 | the face list has 5*(count-1) + 6 faces with distinct indices inside the vertex list |
| ShipSubd.SkinConsistent | examples/scripts/blender_ship_subd.py:165-170 | neighbouring skin quads run their shared edges in opposite directions |
| ShipSubd.NoseMatchesSkin | examples/scripts/blender_ship_subd.py:178-198 | the five nose faces run the last rib's edges opposite to the skin and agree with each other on shared edges |
| ShipSubd.TransomRunsWithSkin | examples/scripts/blender_ship_subd.py:200-204 | the transom hexagon runs edge 0->1 the same way as the first skin quad |
| NurbsBarge.XCoordsIncreasing | examples/scripts/blender_nurbs_barge.py:76 | x_coords has 10 strictly increasing stations from 0 to 135 |
| NurbsBarge.WidthFactorParallel | examples/scripts/blender_nurbs_barge.py:93-100 | the width factor is 1 for 20 <= x <= 115 |
| NurbsBarge.WidthFactorStern | examples/scripts/blender_nurbs_barge.py:95-97 | toward the stern 0.6 + 0.4*t^0.5 lies in [0.6, 1] and is 0.6 at x = 0 |
| NurbsBarge.WidthFactorBow | examples/scripts/blender_nurbs_barge.py:98-100 | toward the bow 1 - 0.9*t^1.5 lies in [0.1, 1] and reaches 0.1 at x = 135 |
| NurbsBarge.HalfBeamBounds | examples/scripts/blender_nurbs_barge.py:93-102 | the section half-breadth lies in [0.1, 1]*HalfB |
| NurbsBarge.KeelRise | examples/scripts/blender_nurbs_barge.py:104-108 | the keel rise lies in [0, 1.8], is 1.8 at x = 0 and 0 from x = 25 on |
| NurbsBarge.DeckSheer | examples/scripts/blender_nurbs_barge.py:110-112 | the deck is never below H and is exactly H for 10 <= x <= 120 |
| NurbsBarge.RadiusFits | examples/scripts/blender_nurbs_barge.py:114 | the effective radius min(R, 0.9*hb) is positive and at most R and 0.9*hb, so hb - r >= 0 |
| NurbsBarge.SectionProfile | examples/scripts/blender_nurbs_barge.py:118-159 | the profile has exactly num_points_v points |
| NurbsBarge.GetSectionProfile | examples/scripts/blender_nurbs_barge.py:89-159 | the envelope computed at its head is EnvelopeAt(x) (SectionHalfBeam from WidthFactor, EffRadius, KeelZ, DeckZ), and sample i is SectionPoint of that envelope at t = i/(num_points_v-1); the segment lemmas state where these points lie |
| NurbsBarge.SampleSection | examples/scripts/blender_nurbs_barge.py:118-159 | over the envelope of station x the sampling loop gives SectionProfile(x, n): sample i is the bottom, bilge or side point at t = i/(n-1) |
| NurbsBarge.FirstPointOnKeel | examples/scripts/blender_nurbs_barge.py:132-143 | the first point (t = 0) is (0, keel_z) |
| NurbsBarge.LastPointAtDeck | examples/scripts/blender_nurbs_barge.py:153-156 | the last point (t = 1) is (hb, deck_z) |
| NurbsBarge.BottomSegment | examples/scripts/blender_nurbs_barge.py:139-143 | bottom points have z = keel_z and 0 <= y <= hb - r |
| NurbsBarge.BottomOfEnvelope | examples/scripts/blender_nurbs_barge.py:139-143 | the same bounds for any envelope with 0 <= r <= hb |
| NurbsBarge.BilgeSegment | examples/scripts/blender_nurbs_barge.py:144-152 | bilge points lie in the box hb - r <= y <= hb, keel_z <= z <= keel_z + r |
| NurbsBarge.BilgeOfEnvelope | examples/scripts/blender_nurbs_barge.py:144-152 | the same box for any envelope with r >= 0 |
| NurbsBarge.SideSegment | examples/scripts/blender_nurbs_barge.py:153-156 | side points have y = hb |
| NurbsBarge.SegmentsJoin | examples/scripts/blender_nurbs_barge.py:132-156 | the three segments meet at the key points (hb - r, keel_z) and (hb, keel_z + r) |
| NurbsBarge.RowPoints | examples/scripts/blender_nurbs_barge.py:185-191 | one control point (x, y, z, 1) per section point |
| NurbsBarge.ControlRows | examples/scripts/blender_nurbs_barge.py:179-191 | u_count rows of v_count control points each |
| NurbsBarge.AssignSection | examples/scripts/blender_nurbs_barge.py:185-191 | the inner loop writes row u, as (x, y, z, 1.0) per section point, at [idx, idx+v_count) and leaves the points before and after it unchanged |
| NurbsBarge.ShapeSurface | examples/scripts/blender_nurbs_barge.py:179-191 | after the loop the spline's points are the control rows in u-major order |
| NurbsBarge.ControlPointAt | examples/scripts/blender_nurbs_barge.py:179-191 | control point u*v_count+v receives (x_coords[u], y, z, 1.0) of sample v of station u |
| Draft.AreaOf | scripts/calculate_draft.py:41-55 | a slice with fewer than 3 points or one that raised contributes area 0, otherwise its triangulated area |
| Draft.Sweep | scripts/calculate_draft.py:27 | 200 levels |
| Draft.SweepSpansBounds | scripts/calculate_draft.py:27 | the levels run from z_min to z_max with the constant step (z_max - z_min)/199, increasing when z_min < z_max |
| Draft.WaterplaneAreas | scripts/calculate_draft.py:28-57 | one area per level, each the slice's area |
| Draft.CumulativeVolumes | scripts/calculate_draft.py:59-65 | the in-place loop gives volumes[i] == VolumeAt(i): volumes[0] = 0 and volumes[i] = volumes[i-1] + 0.5*(a[i]+a[i-1])*(z[i]-z[i-1]); VolumesMonotone and VolumeCurveSorted state its properties |
| Draft.SlabNonNegative | scripts/calculate_draft.py:63-64 | a slab of non-negative areas over a non-decreasing step is non-negative |
| Draft.VolumesMonotone | scripts/calculate_draft.py:59-65 | with non-negative areas and increasing levels the volumes are non-negative and non-decreasing |
| Draft.VolumeCurveSorted | scripts/calculate_draft.py:27-65 | for z_min <= z_max and non-negative slice areas the volume curve starts at 0 and is sorted |
| Draft.SearchSortedLeft | scripts/calculate_draft.py:76 | idx is the leftmost index with volumes[idx] >= target: everything before it is smaller |
| Draft.SearchSortedSplits | scripts/calculate_draft.py:76 | on sorted volumes everything from idx on reaches the target |
| Draft.Solve | scripts/calculate_draft.py:68-92 | the capacity warning is printed exactly when the last volume is below the target |
| Draft.CalculateDraft | scripts/calculate_draft.py:18-97 | the loops compose into DraftOutcome: Solve over the sweep and the volume curve for target_volume = target_mass / rho, giving the water level, how it was found and the capacity warning |
| Draft.NoVolumeGivesBottom | scripts/calculate_draft.py:76-80 | a target of at most 0 (for example mass 0) returns z_min |
| Draft.BelowMinimumIff | scripts/calculate_draft.py:76-80 | the idx == 0 return happens exactly when target <= volumes[0], and gives z_min |
| Draft.AboveMaximumIff | scripts/calculate_draft.py:68-83 | z_max is returned exactly when no level reaches the target; on sorted volumes that is exactly when the warning is printed |
| Draft.InterpolationBracket | scripts/calculate_draft.py:85-91 | otherwise idx - 1 and idx bracket the target, v_low < target <= v_high, so the interpolation denominator is positive |
| Draft.InterpolatedLevel | scripts/calculate_draft.py:85-92 | on rising levels the interpolated level lies in (z_low, z_high] and the linear interpolant of the volume takes the target value there |
| Draft.InterpolateWithin | scripts/calculate_draft.py:90-92 | the linear interpolation Interpolate of a bracketed target lands in (z_low, z_high] and reproduces the target volume |
| Hydrostatics.HullTermAppend | scripts/verify_hydrostatics.py:118-133 | the hull term sum(Nz*z_center*area) of two cell lists together is the sum of their terms |
| Hydrostatics.VerticalCellsVanish | scripts/verify_hydrostatics.py:124-133 | cells with horizontal normals add nothing to the hull term |
| Hydrostatics.WaterlineArea | scripts/verify_hydrostatics.py:144-148 | the waterline area is the triangulated area, or 0 when the slice has no points |
| Hydrostatics.Volume | scripts/verify_hydrostatics.py:159-164 | volume = \|HullTerm + draft*wl_area\| >= 0, HullTerm being the sum of Nz*z_center*area over the cells (HullTermAppend, VerticalCellsVanish and BoxBargeVolume state its properties) |
| Hydrostatics.RelativeError | scripts/verify_hydrostatics.py:171-172 | \|displacement - mass\| / mass, non-negative for positive mass; float64 gives nan for 0/0 and inf for nonzero/0 |
| Hydrostatics.Judge | scripts/verify_hydrostatics.py:177-186 | PASS iff not relative_error > tolerance; on failure too LIGHT iff displacement > mass, else too HEAVY |
| Hydrostatics.VerifyHydrostatics | scripts/verify_hydrostatics.py:11-191 | read error exits, empty clip exits, a library error is caught; otherwise volume >= 0 and displacement = volume*water_density |
| Hydrostatics.ExitCode | scripts/verify_hydrostatics.py:23-191 | status 1 exactly for a read error or an empty clip, 0 otherwise |
| Hydrostatics.SoftFail | scripts/verify_hydrostatics.py:177-184 | a checked balance exits 0 whether it passes or fails |
| Hydrostatics.VerdictForPositiveMass | scripts/verify_hydrostatics.py:171-177 | for positive mass the verdict fails exactly when \|displacement - mass\|/mass > tolerance |
| Hydrostatics.BoxBargeVolume | scripts/verify_hydrostatics.py:118-164 | for a box barge the divergence-theorem volume is bottom area * (draft - z_bottom) |
| DraftCheck.IndexOfDot | scripts/analysis/verify_hydrostatics.py:26-28 | the position of the first '.' in a captured numeral, or its length when there is none |
| DraftCheck.ParseFloat | scripts/analysis/verify_hydrostatics.py:26-28 | float() of a captured string: an optional '-' negates the unsigned numeral, and fails when that fails |
| DraftCheck.ParsedHasShape | scripts/analysis/verify_hydrostatics.py:26-28 | an accepted unsigned numeral is non-empty, has at most one '.', and has at least one digit |
| DraftCheck.ShapeIsParsed | scripts/analysis/verify_hydrostatics.py:26-28 | every such string is accepted |
| DraftCheck.DotIsLast | scripts/analysis/verify_hydrostatics.py:26-28 | in a string with at most one '.', none follows the first |
| DraftCheck.UnsignedAcceptsIff | scripts/analysis/verify_hydrostatics.py:26-28 | an unsigned capture is accepted exactly when it has the decimal shape |
| DraftCheck.NatString | scripts/analysis/verify_hydrostatics.py:26-28 | the decimal digits of a natural number form a non-empty digit string |
| DraftCheck.NatStringValue | scripts/analysis/verify_hydrostatics.py:26-28 | reading the digits of n back gives n |
| DraftCheck.ParseNatString | scripts/analysis/verify_hydrostatics.py:26-28 | float() of the digits of n and of '-' followed by them gives n and -n |
| DraftCheck.ParseFractions | scripts/analysis/verify_hydrostatics.py:26-28 | two instances of ParseDecimal: "3.25" reads as 3.25 and "-.5" as -0.5 |
| DraftCheck.ParseRejects | scripts/analysis/verify_hydrostatics.py:26-28 | three instances of UnsignedAcceptsIff: ".", "1.2.3" and "-" raise ValueError |
| DraftCheck.IntValueConcat | scripts/analysis/verify_hydrostatics.py:26-28 | the digits of a + b read as the value of a shifted by \|b\| decimal places plus the value of b |
| DraftCheck.FracValueScaled | scripts/analysis/verify_hydrostatics.py:26-28 | the fractional digits read after the point, times 10^\|f\|, equal the same digits read as a whole number |
| DraftCheck.FracValueQuotient | scripts/analysis/verify_hydrostatics.py:26-28 | the digits after the point are worth their whole-number value over 10^\|f\|, for every digit string |
| DraftCheck.ParseDecimal | scripts/analysis/verify_hydrostatics.py:26-28 | float() of "w.f" is IntValue(w) + IntValue(f)/10^\|f\| and float() of "-w.f" its negation, for all digit strings w and f not both empty |
| DraftCheck.ParseOpenFoamValue | scripts/analysis/verify_hydrostatics.py:14-29 | None for a missing file or no match, otherwise float of the first capture group |
| DraftCheck.FirstPresent | scripts/analysis/verify_hydrostatics.py:44-46 | the primary dictionary when it exists, else the fallback |
| DraftCheck.VerifyCase | scripts/analysis/verify_hydrostatics.py:31-81 | usage stop iff fewer than 2 arguments; z_target = z_calc + offset (0.10 unless given) and diff = \|z_set - z_target\|, z_set being the configured level |
| DraftCheck.ExitCode | scripts/analysis/verify_hydrostatics.py:88-94 | exit 0 exactly when the comparison completes with diff <= 0.05, 1 otherwise |
| DraftCheck.ToleranceBoundary | scripts/analysis/verify_hydrostatics.py:88-94 | the check passes exactly when z_set lies in [z_target - 0.05, z_target + 0.05], so a diff of exactly 0.05 passes |
| DraftCheck.MissingMassStops | scripts/analysis/verify_hydrostatics.py:48-51 | without a mass the script stops before the draft is computed, whatever the other inputs |
| DraftCheck.MissingWaterLevelStops | scripts/analysis/verify_hydrostatics.py:60-63 | with a mass read from either dictionary but no water level in either, it stops before the hull is looked for, whatever the hull |
| DraftCheck.PassIff | scripts/analysis/verify_hydrostatics.py:77-94 | with a mass, a water level and a hull found (primary or fallback) it exits 0 exactly when \|z_set - (calculate_draft + offset)\| <= 0.05, the offset being the command line's or 0.10 |
| HullReport.CheckIntegrity | scripts/verify_hull.py:12-23 | false for a missing file, false for a size below 100 bytes, true otherwise, each with its message |
| HullReport.CalculateHydrostatics | scripts/verify_hull.py:25-34 | displacement 1000 and centre of buoyancy (0, 0, -1); draft 2.0 when none is requested, else the requested one |
| HullReport.EstimateIgnoresHull | scripts/verify_hull.py:25-34 | the placeholder's answer does not depend on the hull |
| HullReport.RelativeError | scripts/verify_hull.py:101-113 | err = \|extent - expected\| / expected, non-negative |
| HullReport.DimensionBand | scripts/verify_hull.py:100-115 | a specified dimension passes exactly when the extent lies in expected*(1 ± tolerance) |
| HullReport.UnspecifiedProfilePasses | scripts/verify_hull.py:100-115 | a profile with no positive entry checks nothing |
| HullReport.NoProfileIntegrityDecides | scripts/verify_hull.py:86-87 | with no profile the dimension check passes |
| HullReport.CheckDimensions | scripts/verify_hull.py:86-115 | the flag is DimensionsPass; each dimension is checked only when expected > 0, its error recorded under its key; length and beam fail above 0.05 and depth above 0.10 |
| HullReport.VerifyHull | scripts/verify_hull.py:47-139 | a load failure writes FAILED_LOAD and exits 1; otherwise APPROVED iff watertight, winding-consistent and within the dimensions, else REJECTED, with the checks, dimensions and hydrostatics recorded and exit 0 |

## Left out

- I/O is left out: file reading, STL, JSON and report writing, logging and printing, `click`/`argparse` entry points, and `sys.exit`. Exit statuses are returned as values.
- Blender and the geometry libraries are left out: `bpy`/`bmesh` calls, the NURBS primitive and its subdivision, the mirror and sub-division modifiers, `remove_doubles`, normal recalculation, and pyvista/trimesh reading, slicing, clipping, `delaunay_2d`, normals, cell sizes, watertightness and volume. Their results are inputs: slice probes, cells, mesh facts and a load outcome.
- The Wigley, grid and sub-division builders are not claimed to produce closed or manifold meshes. The grid mesh leaves the deck open and duplicates centreline vertices.
- The tanker's superellipse and bulb body (generate_hull.py before line 280) is not modelled. `TankerMesh` takes the grid as input.
- `write_stl` is I/O and is not modelled.
- Floating point is modelled as `real`: no IEEE rounding and no overflow. Division by a zero mass in scripts/verify_hydrostatics.py is modelled with `RelError` (finite, inf or nan).
- Non-finite inputs (nan, inf) from the command line or the hull profile are not modelled. Every comparison with nan is false, so in each of these places the input is let through:
  - DraftCheck.VerifyCase: `float(sys.argv[2])` accepts "nan" as the offset (scripts/analysis/verify_hydrostatics.py:37). `diff` is then nan, `diff > 0.05` at line 88 is false, and the script reports success and exits 0. The model's `offsetArg` holds a `real` or nothing.
  - Hydrostatics.VerifyHydrostatics: a mass or tolerance of nan makes `relative_error > tolerance` false (scripts/verify_hydrostatics.py:171-177), and PASS is printed. The model takes both as `real`.
  - HullReport.CheckDimensions: a profile dimension of Infinity gives `err = inf/inf = nan` (scripts/verify_hull.py:100-103), so the dimension passes. The model takes profile values as `real`.
- Fractional powers, `sqrt`, `sin` and `cos` are total functions known only through the bounds the proofs use (0 and 1 at the ends, range [0, 1], monotone). The exact curve values are therefore not stated.
- The slice loop of verify_hydrostatics.py (lines 37-65) computes nothing that is used, so it is not modelled.
- DraftCheck.ParseFloat: models float() only over the characters the two regular expressions can capture (digits, '.', '-'). Exponents, '+', whitespace, inf/nan and underscores cannot occur there and are not modelled. The regular-expression search itself is an input.
- DraftCheck.VerifyCase: `float(sys.argv[2])` is an input (`offsetArg`, None when it raises). `calculate_draft` is imported from the analysis script's directory, where calculate_draft.py is not; the model assumes the import resolves to scripts/calculate_draft.py.
- DraftCheck.VerifyCase: requires each hull to come with its 200 slices. That is the library's output shape, not a check the script makes.
- HullReport.VerifyHull: profile values are taken as numbers, with a missing key as 0. A ValueError from `float()` on a non-numeric profile entry is not modelled.
- HullReport.CheckIntegrity and HullReport.CalculateHydrostatics: modelled as written, although `main` calls neither.
- Draft.SearchSortedLeft: defined as the first index whose volume reaches the target. numpy's binary search returns that index on sorted input, and Draft.VolumeCurveSorted proves the volumes are sorted when slice areas are non-negative and z_min <= z_max. On unsorted volumes numpy's answer may differ.
- Draft.CalculateDraft: requires rho != 0. A zero density raises ZeroDivisionError before anything is computed.
- NurbsBarge.GetSectionProfile: requires num_points_v != 1. With one point, `i / (num_points_v - 1)` raises ZeroDivisionError.
- ShipSubd.ProfileVerts, NurbsBarge.WidthFactor and the functions that call them: require the station x >= 0. For a negative x, `t**0.5` (blender_ship_subd.py:55, blender_nurbs_barge.py:97) gives a complex number in Python. Every station the source uses is a constant >= 0.
- NurbsBarge.ShapeSurface: requires u_count <= 10. A larger grid indexes past `x_coords` and raises IndexError.
- EuropeBarge and NurbsBarge: the station loops use the source's constants. The lemmas are stated for the hull length; points outside [0, L] are not constrained.

## Findings

| source | as written | input that shows it | evidently intended | confidence | as-written member | corrected member |
|---|---|---|---|---|---|---|
| examples/scripts/generate_hull.py:377-387 | the transom triangles [s1,s0,p0] and [s1,p0,p1] run the row-0 edge s1->s0 (and p0->p1 on port) in the same direction as the adjacent hull triangles [p0,p2,p3] and their mirrors, so the transom's winding disagrees with the shell it closes | any grid with ny >= 1, e.g. nx = ny = 1: hull triangle [0,3,1] and transom triangle [1,0,4] both contain the directed edge 1->0 | the transom wound like the shell, every shared edge running in opposite directions, as the bow cap (lines 310-322, "same as transom logic") is | not executed | GridMesh.TransomWindingClash | GridMesh.OrientedGridFacesShape |
