/** The equilibrium water level of calculate_draft (calculate_draft.py):
    waterplane areas at 200 evenly spaced levels between the hull's lowest
    and highest z, their cumulative trapezoidal integral (the displaced
    volume below each level), a left search for the target volume
    target_mass / rho, and a linear interpolation between the bracketing
    levels. The mesh and its slices are inputs: each level's slice is given
    by its point count and the area of its triangulation, or as having
    raised an exception. */
module Draft {

  /** Number of sampled levels. */
  const Levels: nat := 200

  /** The outcome of one waterplane slice, as the geometry library reports it. */
  datatype SliceProbe =
    | Raised
    | Slice(nPoints: nat, area: real)

  /** The area a slice contributes: 0 if it raised or has fewer than 3
      points, else the area of its triangulation. */
  function AreaOf(p: SliceProbe): (a: real)
    ensures p.Raised? ==> a == 0.0
    ensures p.Slice? && p.nPoints < 3 ==> a == 0.0
    ensures p.Slice? && p.nPoints >= 3 ==> a == p.area
  {
    match p
    case Raised => 0.0
    case Slice(n, area) => if n < 3 then 0.0 else area
  }

  /** Level i of linspace(zMin, zMax, 200). */
  function Level(zMin: real, zMax: real, i: nat): real
  {
    zMin + i as real * ((zMax - zMin) / (Levels as real - 1.0))
  }

  /** linspace(zMin, zMax, 200). */
  function Sweep(zMin: real, zMax: real): (zs: seq<real>)
    ensures |zs| == Levels
  {
    seq(Levels, i requires 0 <= i < Levels => Level(zMin, zMax, i))
  }

  /** The sweep starts at zMin, ends at zMax, is evenly spaced with step
      (zMax - zMin) / 199, and climbs when zMin < zMax (never descends when
      zMin <= zMax). */
  lemma SweepSpansBounds(zMin: real, zMax: real)
    ensures Sweep(zMin, zMax)[0] == zMin
    ensures Sweep(zMin, zMax)[Levels - 1] == zMax
    ensures forall i {:trigger Sweep(zMin, zMax)[i]} :: 1 <= i < Levels ==>
      Sweep(zMin, zMax)[i] - Sweep(zMin, zMax)[i - 1] == (zMax - zMin) / 199.0
    ensures zMin <= zMax ==> forall i {:trigger Sweep(zMin, zMax)[i]} :: 1 <= i < Levels ==>
      Sweep(zMin, zMax)[i - 1] <= Sweep(zMin, zMax)[i]
    ensures zMin < zMax ==> forall i {:trigger Sweep(zMin, zMax)[i]} :: 1 <= i < Levels ==>
      Sweep(zMin, zMax)[i - 1] < Sweep(zMin, zMax)[i]
  {
    var step := (zMax - zMin) / (Levels as real - 1.0);
    assert (Levels - 1) as real * step == zMax - zMin;
    forall i | 1 <= i < Levels
      ensures Level(zMin, zMax, i) == Level(zMin, zMax, i - 1) + step
    {
      assert i as real * step == (i - 1) as real * step + step;
    }
  }

  /** The area loop: one area per level. */
  method WaterplaneAreas(probes: seq<SliceProbe>) returns (areas: seq<real>)
    ensures |areas| == |probes|
    ensures forall i :: 0 <= i < |probes| ==> areas[i] == AreaOf(probes[i])
  {
    areas := [];
    for i := 0 to |probes|
      invariant |areas| == i
      invariant forall k :: 0 <= k < i ==> areas[k] == AreaOf(probes[k])
    {
      match probes[i]
      case Raised =>
        areas := areas + [0.0];
      case Slice(n, area) =>
        if n < 3 {
          areas := areas + [0.0];
        } else {
          areas := areas + [area];
        }
    }
  }

  /** The trapezoid between levels i - 1 and i. */
  function Slab(zs: seq<real>, areas: seq<real>, i: nat): real
    requires 1 <= i < |zs| && |zs| == |areas|
  {
    0.5 * (areas[i] + areas[i - 1]) * (zs[i] - zs[i - 1])
  }

  /** The cumulative trapezoidal volume below level i. */
  function VolumeAt(zs: seq<real>, areas: seq<real>, i: nat): real
    requires i < |zs| && |zs| == |areas|
  {
    if i == 0 then 0.0 else VolumeAt(zs, areas, i - 1) + Slab(zs, areas, i)
  }

  /** The cumulative trapezoid loop over a zero-initialised volume array. */
  method CumulativeVolumes(zs: seq<real>, areas: seq<real>) returns (volumes: seq<real>)
    requires |zs| == |areas|
    ensures |volumes| == |areas|
    ensures forall i :: 0 <= i < |areas| ==> volumes[i] == VolumeAt(zs, areas, i)
  {
    var v := new real[|areas|](_ => 0.0);
    if |zs| > 0 {
      for i := 1 to |zs|
        invariant forall k :: 0 <= k < i ==> v[k] == VolumeAt(zs, areas, k)
      {
        var dz := zs[i] - zs[i - 1];
        var slab := 0.5 * (areas[i] + areas[i - 1]) * dz;
        assert slab == Slab(zs, areas, i);
        v[i] := v[i - 1] + slab;
      }
    }
    volumes := v[..];
  }

  /** A slab over a non-negative area and a non-descending step is non-negative. */
  lemma SlabNonNegative(zs: seq<real>, areas: seq<real>, i: nat)
    requires 1 <= i < |zs| && |zs| == |areas|
    requires 0.0 <= areas[i] && 0.0 <= areas[i - 1] && zs[i - 1] <= zs[i]
    ensures 0.0 <= Slab(zs, areas, i)
  {
    var h := 0.5 * (areas[i] + areas[i - 1]);
    var d := zs[i] - zs[i - 1];
    assert 0.0 <= h && 0.0 <= d;
    assert 0.0 <= h * d;
  }

  /** With non-negative areas over non-descending levels the volume never
      decreases with the level, and is never negative. */
  lemma {:induction false} VolumesMonotone(zs: seq<real>, areas: seq<real>, i: nat, j: nat)
    requires |zs| == |areas| && i <= j < |zs|
    requires forall k :: 0 <= k < |areas| ==> 0.0 <= areas[k]
    requires forall k :: 1 <= k < |zs| ==> zs[k - 1] <= zs[k]
    ensures 0.0 <= VolumeAt(zs, areas, i) <= VolumeAt(zs, areas, j)
  {
    if j > 0 {
      SlabNonNegative(zs, areas, j);
      if i < j {
        VolumesMonotone(zs, areas, i, j - 1);
      } else {
        VolumesMonotone(zs, areas, i - 1, j - 1);
      }
    }
  }

  /** The values are in non-descending order. */
  predicate Sorted(vs: seq<real>)
  {
    forall a, b :: 0 <= a <= b < |vs| ==> vs[a] <= vs[b]
  }

  /** searchsorted(vs, target) with side 'left': the first index whose value
      reaches the target, or |vs| if none does. On sorted input this is the
      index numpy's binary search returns. */
  function SearchSortedLeft(vs: seq<real>, target: real): (idx: nat)
    ensures idx <= |vs|
    ensures forall k :: 0 <= k < idx ==> vs[k] < target
    ensures idx < |vs| ==> target <= vs[idx]
  {
    if |vs| == 0 then 0
    else if target <= vs[0] then 0
    else 1 + SearchSortedLeft(vs[1..], target)
  }

  /** On sorted input the search splits the values: below idx they are short
      of the target, from idx on they reach it. */
  lemma SearchSortedSplits(vs: seq<real>, target: real)
    requires Sorted(vs)
    ensures var idx := SearchSortedLeft(vs, target);
      forall k :: idx <= k < |vs| ==> target <= vs[k]
  {
    var idx := SearchSortedLeft(vs, target);
    if idx < |vs| {
      assert forall k :: idx <= k < |vs| ==> vs[idx] <= vs[k];
    }
  }

  /** How the water level was found. */
  datatype Method = BelowMinimum | AboveMaximum | Interpolated

  /** The water level, how it was found, and whether the capacity warning
      was printed. */
  datatype Outcome = Outcome(z: real, how: Method, capacityWarning: bool)

  /** The search, edge returns and interpolation of calculate_draft over a
      volume curve vs sampled at levels zs. */
  function Solve(zMin: real, zMax: real, zs: seq<real>, vs: seq<real>, target: real): (o: Outcome)
    requires |zs| == |vs| >= 1
    ensures o.capacityWarning <==> vs[|vs| - 1] < target
  {
    var warning := vs[|vs| - 1] < target;
    var idx := SearchSortedLeft(vs, target);
    if idx == 0 then Outcome(zMin, BelowMinimum, warning)
    else if idx >= |vs| then Outcome(zMax, AboveMaximum, warning)
    else
      var zLow, zHigh := zs[idx - 1], zs[idx];
      var vLow, vHigh := vs[idx - 1], vs[idx];
      Outcome(Interpolate(zLow, zHigh, vLow, vHigh, target), Interpolated, warning)
  }

  /** The volume curve calculate_draft builds from the slices. */
  function VolumeCurve(zMin: real, zMax: real, probes: seq<SliceProbe>): (vs: seq<real>)
    requires |probes| == Levels
    ensures |vs| == Levels
  {
    var zs := Sweep(zMin, zMax);
    var areas := seq(Levels, i requires 0 <= i < Levels => AreaOf(probes[i]));
    seq(Levels, i requires 0 <= i < Levels => VolumeAt(zs, areas, i))
  }

  /** calculate_draft from the slices on: the result for hull bounds
      [zMin, zMax], one slice per level, the target mass and the density. */
  function DraftOutcome(zMin: real, zMax: real, probes: seq<SliceProbe>, targetMass: real, rho: real): Outcome
    requires |probes| == Levels && rho != 0.0
  {
    Solve(zMin, zMax, Sweep(zMin, zMax), VolumeCurve(zMin, zMax, probes), targetMass / rho)
  }

  /** calculate_draft after the mesh is read and sliced. A zero density
      raises before anything is computed. */
  method CalculateDraft(zMin: real, zMax: real, probes: seq<SliceProbe>, targetMass: real, rho: real)
    returns (o: Outcome)
    requires |probes| == Levels && rho != 0.0
    ensures o == DraftOutcome(zMin, zMax, probes, targetMass, rho)
  {
    var targetVolume := targetMass / rho;
    var zSweep := Sweep(zMin, zMax);
    var areas := WaterplaneAreas(probes);
    var volumes := CumulativeVolumes(zSweep, areas);
    ghost var areaSpec := seq(Levels, i requires 0 <= i < Levels => AreaOf(probes[i]));
    assert areas == areaSpec;
    assert volumes == VolumeCurve(zMin, zMax, probes);
    var maxDisp := volumes[|volumes| - 1];
    var warning := maxDisp < targetVolume;
    var idx := SearchSortedLeft(volumes, targetVolume);
    if idx == 0 {
      return Outcome(zMin, BelowMinimum, warning);
    }
    if idx >= |volumes| {
      return Outcome(zMax, AboveMaximum, warning);
    }
    var zLow := zSweep[idx - 1];
    var zHigh := zSweep[idx];
    var vLow := volumes[idx - 1];
    var vHigh := volumes[idx];
    var fraction := (targetVolume - vLow) / (vHigh - vLow);
    var targetZ := zLow + fraction * (zHigh - zLow);
    o := Outcome(targetZ, Interpolated, warning);
  }

  /** The volume curve starts at 0, so a target volume of at most 0 (for
      instance a target mass of 0) returns zMin. */
  lemma NoVolumeGivesBottom(zs: seq<real>, vs: seq<real>, zMin: real, zMax: real, target: real)
    requires |zs| == |vs| >= 1 && vs[0] == 0.0 && target <= 0.0
    ensures Solve(zMin, zMax, zs, vs, target).how == BelowMinimum
    ensures Solve(zMin, zMax, zs, vs, target).z == zMin
  {
  }

  /** The search answers 0 exactly when the target is at most the first
      volume; then zMin is returned. */
  lemma BelowMinimumIff(zs: seq<real>, vs: seq<real>, zMin: real, zMax: real, target: real)
    requires |zs| == |vs| >= 1
    ensures Solve(zMin, zMax, zs, vs, target).how == BelowMinimum <==> target <= vs[0]
    ensures target <= vs[0] ==> Solve(zMin, zMax, zs, vs, target).z == zMin
  {
  }

  /** No level reaching the target returns zMax, and the result is returned
      whether or not the capacity warning was printed. On a sorted volume
      curve the warning is printed exactly in that case. */
  lemma AboveMaximumIff(zs: seq<real>, vs: seq<real>, zMin: real, zMax: real, target: real)
    requires |zs| == |vs| >= 1
    ensures Solve(zMin, zMax, zs, vs, target).how == AboveMaximum <==>
      forall k :: 0 <= k < |vs| ==> vs[k] < target
    ensures Solve(zMin, zMax, zs, vs, target).how == AboveMaximum ==> Solve(zMin, zMax, zs, vs, target).z == zMax
    ensures Sorted(vs) ==>
      (Solve(zMin, zMax, zs, vs, target).capacityWarning <==> Solve(zMin, zMax, zs, vs, target).how == AboveMaximum)
  {
    var idx := SearchSortedLeft(vs, target);
    if idx < |vs| {
      assert target <= vs[idx];
      if Sorted(vs) {
        assert vs[idx] <= vs[|vs| - 1];
      }
    }
  }

  /** Otherwise the levels idx - 1 and idx bracket the target volume,
      v_low < target <= v_high, so the interpolation denominator is positive. */
  lemma InterpolationBracket(zs: seq<real>, vs: seq<real>, zMin: real, zMax: real, target: real)
    requires |zs| == |vs| >= 1
    requires Solve(zMin, zMax, zs, vs, target).how == Interpolated
    ensures var idx := SearchSortedLeft(vs, target);
      && 1 <= idx < |vs|
      && vs[idx - 1] < target <= vs[idx]
      && 0.0 < vs[idx] - vs[idx - 1]
  {
  }

  /** On rising levels the interpolated result lies in (z_low, z_high], and
      the linear interpolant of the volume through the bracket takes the
      target value there. */
  lemma InterpolatedLevel(zs: seq<real>, vs: seq<real>, zMin: real, zMax: real, target: real)
    requires |zs| == |vs| >= 1
    requires Solve(zMin, zMax, zs, vs, target).how == Interpolated
    ensures var idx := SearchSortedLeft(vs, target);
      var z := Solve(zMin, zMax, zs, vs, target).z;
      1 <= idx < |vs| && (zs[idx - 1] < zs[idx] ==>
        && zs[idx - 1] < z <= zs[idx]
        && vs[idx - 1] + (z - zs[idx - 1]) / (zs[idx] - zs[idx - 1]) * (vs[idx] - vs[idx - 1]) == target)
  {
    InterpolationBracket(zs, vs, zMin, zMax, target);
    var idx := SearchSortedLeft(vs, target);
    var zLow, zHigh := zs[idx - 1], zs[idx];
    var vLow, vHigh := vs[idx - 1], vs[idx];
    assert Solve(zMin, zMax, zs, vs, target).z == Interpolate(zLow, zHigh, vLow, vHigh, target);
    if zLow < zHigh {
      InterpolateWithin(zLow, zHigh, vLow, vHigh, target);
    }
  }

  /** The linear interpolation of calculate_draft between (zLow, vLow) and
      (zHigh, vHigh), solved for volume target. */
  function Interpolate(zLow: real, zHigh: real, vLow: real, vHigh: real, target: real): real
    requires vLow != vHigh
  {
    zLow + ((target - vLow) / (vHigh - vLow)) * (zHigh - zLow)
  }

  /** For vLow < target <= vHigh and zLow < zHigh the interpolated level lies
      in (zLow, zHigh], and the line through the two points has the target
      volume there. */
  lemma InterpolateWithin(zLow: real, zHigh: real, vLow: real, vHigh: real, target: real)
    requires vLow < target <= vHigh && zLow < zHigh
    ensures var z := Interpolate(zLow, zHigh, vLow, vHigh, target);
      && zLow < z <= zHigh
      && vLow + (z - zLow) / (zHigh - zLow) * (vHigh - vLow) == target
  {
    var dv, dz := vHigh - vLow, zHigh - zLow;
    var fraction := (target - vLow) / dv;
    assert 0.0 < fraction <= 1.0 && fraction * dv == target - vLow by {
      FractionInUnit(target - vLow, dv);
    }
    var step := fraction * dz;
    assert 0.0 < step <= dz by { PositiveScale(fraction, dz); }
    var z := zLow + step;
    assert z == Interpolate(zLow, zHigh, vLow, vHigh, target);
    assert (z - zLow) / dz == fraction by {
      assert z - zLow == step;
      DivideBack(fraction, dz);
    }
  }

  /** Scaling a positive d by a factor in (0, 1] stays in (0, d]. */
  lemma PositiveScale(s: real, d: real)
    requires 0.0 < s <= 1.0 && 0.0 < d
    ensures 0.0 < s * d <= d
  {
    assert (1.0 - s) * d >= 0.0;
  }

  /** Multiplying by a positive d and dividing by it again is the identity. */
  lemma DivideBack(f: real, d: real)
    requires 0.0 < d
    ensures (f * d) / d == f
  {
    var q := (f * d) / d;
    assert q * d == f * d;
    assert (q - f) * d == 0.0;
  }

  /** For 0 < num <= d the quotient num / d lies in (0, 1], and multiplying
      it back by d gives num. */
  lemma FractionInUnit(num: real, d: real)
    requires 0.0 < d
    ensures (num / d) * d == num
    ensures 0.0 < num <= d ==> 0.0 < num / d <= 1.0
    ensures 0.0 <= num / d <= 1.0 ==> 0.0 <= (num / d) * d <= d
  {
    var q := num / d;
    assert q * d == num;
    assert (1.0 - q) * d == d - num;
  }

  /** With non-negative slice areas and zMin <= zMax, the volume curve of
      calculate_draft is sorted, as the search requires. */
  lemma VolumeCurveSorted(zMin: real, zMax: real, probes: seq<SliceProbe>)
    requires |probes| == Levels
    requires forall i :: 0 <= i < Levels && probes[i].Slice? ==> 0.0 <= probes[i].area
    requires zMin <= zMax
    ensures Sorted(VolumeCurve(zMin, zMax, probes))
    ensures VolumeCurve(zMin, zMax, probes)[0] == 0.0
  {
    var zs := Sweep(zMin, zMax);
    var areas := seq(Levels, i requires 0 <= i < Levels => AreaOf(probes[i]));
    SweepSpansBounds(zMin, zMax);
    forall a, b | 0 <= a <= b < Levels
      ensures VolumeCurve(zMin, zMax, probes)[a] <= VolumeCurve(zMin, zMax, probes)[b]
    {
      VolumesMonotone(zs, areas, a, b);
    }
  }
}
