/** The hull report of verify_hull (scripts/verify_hull.py): integrity flags
    from the mesh library, the mesh's extents against the lengths of an
    optional design profile with relative tolerances, and an APPROVED or
    REJECTED status written to a JSON report. The mesh library's answers
    (load success, watertightness, winding consistency, bounds, extents,
    volume, centre of mass) and the parsed profile are inputs; the report
    is returned instead of written. */
module HullReport {
  import opened Wrappers
  import opened Mesh
  import opened RealArith

  // ---------------------------------------------------------------------
  // The two placeholder helpers
  // ---------------------------------------------------------------------

  /** What stat reports about the hull file. */
  datatype FileStat = NotFound | Present(size: nat)

  const MinimumFileSize: nat := 100

  /** check_integrity: a missing file and a file under 100 bytes fail, each
      with its own message; any other file passes. */
  function CheckIntegrity(f: FileStat): (r: (bool, string))
    ensures r.0 <==> f.Present? && f.size >= MinimumFileSize
    ensures f.NotFound? ==> r.1 == "File not found"
    ensures f.Present? && f.size < MinimumFileSize ==> r.1 == "File too small (likely invalid)"
    ensures r.0 ==> r.1 == "Passed integrity check"
  {
    match f
    case NotFound => (false, "File not found")
    case Present(size) =>
      if size < MinimumFileSize then (false, "File too small (likely invalid)")
      else (true, "Passed integrity check")
  }

  /** The fixed answer of the hydrostatics placeholder. */
  datatype Estimate = Estimate(displacement: real, centerOfBuoyancy: Vec3, draft: real)

  /** calculate_hydrostatics: a constant displacement of 1000 and centre of
      buoyancy (0, 0, -1); the draft is the requested one, 2.0 when none is
      requested. */
  function CalculateHydrostatics(stlPath: string, targetDraft: Option<real>): (e: Estimate)
    ensures e.displacement == 1000.0 && e.centerOfBuoyancy == Vec3(0.0, 0.0, -1.0)
    ensures targetDraft.None? ==> e.draft == 2.0
    ensures targetDraft.Some? ==> e.draft == targetDraft.value
  {
    Estimate(1000.0, Vec3(0.0, 0.0, -1.0), if targetDraft.None? then 2.0 else targetDraft.value)
  }

  /** The placeholder never looks at the hull: any two paths give the same
      estimate for the same requested draft. */
  lemma EstimateIgnoresHull(p: string, q: string, targetDraft: Option<real>)
    ensures CalculateHydrostatics(p, targetDraft) == CalculateHydrostatics(q, targetDraft)
  {
  }

  // ---------------------------------------------------------------------
  // Dimension rules
  // ---------------------------------------------------------------------

  const LengthTolerance: real := 0.05
  const BeamTolerance: real := 0.05
  const DepthTolerance: real := 0.10

  /** The expected dimensions of profile.json; a missing key reads as 0. */
  datatype Profile = Profile(length: real, width: real, depth: real)

  /** |actual - expected| / expected. */
  function RelativeError(actual: real, expected: real): (err: real)
    requires expected > 0.0
    ensures err >= 0.0
    ensures err * expected == Abs(actual - expected)
  {
    Abs(actual - expected) / expected
  }

  /** One dimension passes when it is not specified (expected <= 0) or its
      relative error is within the tolerance. */
  predicate DimensionOk(actual: real, expected: real, tolerance: real)
  {
    expected <= 0.0 || RelativeError(actual, expected) <= tolerance
  }

  /** The dimension verdict: no profile passes; otherwise length and beam
      within 5 % and depth within 10 % wherever the profile gives them. */
  predicate DimensionsPass(extents: Vec3, profile: Option<Profile>)
  {
    profile.Some? ==>
      && DimensionOk(extents.x, profile.value.length, LengthTolerance)
      && DimensionOk(extents.y, profile.value.width, BeamTolerance)
      && DimensionOk(extents.z, profile.value.depth, DepthTolerance)
  }

  /** A specified dimension passes exactly when the measured extent lies in
      the band expected * (1 - tolerance) .. expected * (1 + tolerance). */
  lemma DimensionBand(actual: real, expected: real, tolerance: real)
    requires expected > 0.0
    ensures DimensionOk(actual, expected, tolerance)
      <==> expected * (1.0 - tolerance) <= actual <= expected * (1.0 + tolerance)
  {
    var err := RelativeError(actual, expected);
    assert err * expected == Abs(actual - expected);
    if err <= tolerance {
      assert err * expected <= tolerance * expected;
    } else {
      assert err * expected > tolerance * expected;
    }
  }

  /** A profile with no positive entry checks nothing. */
  lemma UnspecifiedProfilePasses(extents: Vec3, p: Profile)
    requires p.length <= 0.0 && p.width <= 0.0 && p.depth <= 0.0
    ensures DimensionsPass(extents, Some(p))
  {
  }

  // ---------------------------------------------------------------------
  // main
  // ---------------------------------------------------------------------

  /** What trimesh reports about the loaded hull. */
  datatype MeshFacts = MeshFacts(
    watertight: bool, windingConsistent: bool,
    boundsMin: Vec3, boundsMax: Vec3, extents: Vec3,
    volume: real, centerMass: Option<Vec3>)

  datatype Load = LoadFailed | Loaded(mesh: MeshFacts)

  datatype Status = Unknown | FailedLoad | Approved | Rejected

  /** An entry of the report's "checks": a flag or a relative error. */
  datatype CheckValue = Flag(ok: bool) | Error(err: real)

  datatype Hydrostatics = Hydrostatics(volume: real, centerOfMass: Option<Vec3>)

  /** The JSON report. */
  datatype Report = Report(
    hull: string,
    checks: map<string, CheckValue>,
    dimensions: map<string, Vec3>,
    hydrostatics: Option<Hydrostatics>,
    status: Status)

  /** The dimension checks of main: each specified dimension records its
      relative error under its key and lowers the flag when out of
      tolerance. */
  method CheckDimensions(extents: Vec3, profile: Option<Profile>, checks0: map<string, CheckValue>)
    returns (checks: map<string, CheckValue>, passedDimensions: bool)
    ensures passedDimensions <==> DimensionsPass(extents, profile)
    ensures checks.Keys == checks0.Keys
      + (if profile.Some? && profile.value.length > 0.0 then {"length_error"} else {})
      + (if profile.Some? && profile.value.width > 0.0 then {"beam_error"} else {})
      + (if profile.Some? && profile.value.depth > 0.0 then {"depth_error"} else {})
    ensures forall k :: k in checks0 && k !in {"length_error", "beam_error", "depth_error"} ==> checks[k] == checks0[k]
    ensures profile.Some? && profile.value.length > 0.0 ==>
      checks["length_error"] == Error(RelativeError(extents.x, profile.value.length))
    ensures profile.Some? && profile.value.width > 0.0 ==>
      checks["beam_error"] == Error(RelativeError(extents.y, profile.value.width))
    ensures profile.Some? && profile.value.depth > 0.0 ==>
      checks["depth_error"] == Error(RelativeError(extents.z, profile.value.depth))
  {
    checks := checks0;
    passedDimensions := true;
    if profile.Some? {
      var l, b, d := profile.value.length, profile.value.width, profile.value.depth;
      if l > 0.0 {
        var err := Abs(extents.x - l) / l;
        checks := checks["length_error" := Error(err)];
        if err > LengthTolerance { passedDimensions := false; }
      }
      if b > 0.0 {
        var err := Abs(extents.y - b) / b;
        checks := checks["beam_error" := Error(err)];
        if err > BeamTolerance { passedDimensions := false; }
      }
      if d > 0.0 {
        var err := Abs(extents.z - d) / d;
        checks := checks["depth_error" := Error(err)];
        if err > DepthTolerance { passedDimensions := false; }
      }
    }
  }

  /** main of verify_hull: the report it writes and its exit status. A load
      failure writes a FAILED_LOAD report with empty checks and exits 1.
      Otherwise the report is APPROVED exactly when the mesh is watertight,
      winding-consistent and within the profile's dimensions, and the
      script exits 0 whether APPROVED or REJECTED. */
  method VerifyHull(hull: string, load: Load, profile: Option<Profile>)
    returns (report: Report, exitCode: int)
    ensures load.LoadFailed? ==> report == Report(hull, map[], map[], None, FailedLoad) && exitCode == 1
    ensures load.Loaded? ==> exitCode == 0
    ensures load.Loaded? ==> (report.status == Approved <==>
      load.mesh.watertight && load.mesh.windingConsistent && DimensionsPass(load.mesh.extents, profile))
    ensures load.Loaded? ==> (report.status == Rejected <==>
      !(load.mesh.watertight && load.mesh.windingConsistent && DimensionsPass(load.mesh.extents, profile)))
    ensures load.Loaded? ==> (report.checks.Keys == {"watertight", "winding_consistent"}
      + (if profile.Some? && profile.value.length > 0.0 then {"length_error"} else {})
      + (if profile.Some? && profile.value.width > 0.0 then {"beam_error"} else {})
      + (if profile.Some? && profile.value.depth > 0.0 then {"depth_error"} else {}))
    ensures load.Loaded? ==> (report.hull == hull
      && report.checks["watertight"] == Flag(load.mesh.watertight)
      && report.checks["winding_consistent"] == Flag(load.mesh.windingConsistent))
    ensures load.Loaded? && profile.Some? && profile.value.length > 0.0 ==>
      report.checks["length_error"] == Error(RelativeError(load.mesh.extents.x, profile.value.length))
    ensures load.Loaded? && profile.Some? && profile.value.width > 0.0 ==>
      report.checks["beam_error"] == Error(RelativeError(load.mesh.extents.y, profile.value.width))
    ensures load.Loaded? && profile.Some? && profile.value.depth > 0.0 ==>
      report.checks["depth_error"] == Error(RelativeError(load.mesh.extents.z, profile.value.depth))
    ensures load.Loaded? ==> report.dimensions == map[
      "mesh_extents" := load.mesh.extents,
      "bounds_min" := load.mesh.boundsMin,
      "bounds_max" := load.mesh.boundsMax]
    ensures load.Loaded? ==> report.hydrostatics == Some(Hydrostatics(load.mesh.volume, load.mesh.centerMass))
  {
    report := Report(hull, map[], map[], None, Unknown);
    if load.LoadFailed? {
      report := report.(status := FailedLoad);
      return report, 1;
    }
    var mesh := load.mesh;
    var checks := report.checks["watertight" := Flag(mesh.watertight)];
    checks := checks["winding_consistent" := Flag(mesh.windingConsistent)];
    var passedIntegrity := mesh.watertight && mesh.windingConsistent;
    var dimensions := report.dimensions["mesh_extents" := mesh.extents];
    dimensions := dimensions["bounds_min" := mesh.boundsMin];
    dimensions := dimensions["bounds_max" := mesh.boundsMax];
    var passedDimensions;
    checks, passedDimensions := CheckDimensions(mesh.extents, profile, checks);
    report := report.(checks := checks, dimensions := dimensions,
                      hydrostatics := Some(Hydrostatics(mesh.volume, mesh.centerMass)));
    if passedIntegrity && passedDimensions {
      report := report.(status := Approved);
    } else {
      report := report.(status := Rejected);
    }
    exitCode := 0;
  }

  /** With no profile only the integrity flags decide. */
  lemma NoProfileIntegrityDecides(m: MeshFacts)
    ensures DimensionsPass(m.extents, None)
  {
  }
}
