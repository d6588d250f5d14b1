/** The force-balance check of verify_hydrostatics (verify_hydrostatics.py):
    the submerged volume by the divergence theorem, as the surface sum of
    Nz * z * area over the cells of the hull clipped at the draft plus the
    cap term draft * waterline area, then displacement = volume * density and
    a relative-imbalance verdict. The mesh, its clip, normals, cell sizes and
    the waterline slice are inputs. Arithmetic follows numpy float64:
    dividing by a zero mass gives inf or nan instead of raising. */
module Hydrostatics {
  import opened RealArith

  const DefaultDensity: real := 1025.0
  const DefaultTolerance: real := 0.10

  /** One cell of the clipped hull: the z component of its outward normal,
      the z of its centre, and its area. */
  datatype Cell = Cell(nz: real, zCenter: real, area: real)

  /** What the geometry library reports about the mesh. */
  datatype Geometry =
    | Unreadable
      // pv.read raised
    | LibraryError
      // a library call inside the main try raised (caught and printed)
    | Clipped(clipPoints: nat, cells: seq<Cell>, wlPoints: nat, wlTriArea: real)
      // the clip's point count, its cells, and the waterline slice's point
      // count and the area of its triangulation

  /** A float64 relative error: finite, +inf (nonzero over 0) or nan (0 over 0). */
  datatype RelError = Finite(value: real) | PosInf | NaN

  datatype Verdict = Pass | TooLight | TooHeavy

  /** Where the script stops and what it reports. */
  datatype Outcome =
    | ReadError
    | EmptyClip
    | Crashed
    | Checked(volume: real, displacement: real, relError: RelError, verdict: Verdict)

  /** One cell's contribution to the hull surface integral. */
  function CellTerm(c: Cell): real
  {
    c.nz * c.zCenter * c.area
  }

  /** The hull term sum(Nz * z_center * area) over the cells. */
  function HullTerm(cells: seq<Cell>): real
  {
    if |cells| == 0 then 0.0 else HullTerm(cells[..|cells| - 1]) + CellTerm(cells[|cells| - 1])
  }

  /** The hull term of two cell lists together is the sum of their terms;
      the sum does not depend on how the cells are split. */
  lemma {:induction false} HullTermAppend(a: seq<Cell>, b: seq<Cell>)
    ensures HullTerm(a + b) == HullTerm(a) + HullTerm(b)
  {
    if |b| > 0 {
      var b' := b[..|b| - 1];
      assert (a + b)[..|a + b| - 1] == a + b';
      assert (a + b)[|a + b| - 1] == b[|b| - 1];
      HullTermAppend(a, b');
    } else {
      assert a + b == a;
    }
  }

  /** Cells whose normals are horizontal contribute nothing. */
  lemma {:induction false} VerticalCellsVanish(cells: seq<Cell>)
    requires forall i :: 0 <= i < |cells| ==> cells[i].nz == 0.0
    ensures HullTerm(cells) == 0.0
  {
    if |cells| > 0 {
      VerticalCellsVanish(cells[..|cells| - 1]);
    }
  }

  /** The waterline area: the triangulated area when the slice has points, else 0. */
  function WaterlineArea(wlPoints: nat, wlTriArea: real): (a: real)
    ensures wlPoints == 0 ==> a == 0.0
    ensures wlPoints > 0 ==> a == wlTriArea
  {
    if wlPoints > 0 then wlTriArea else 0.0
  }

  /** The cap term closing the volume at the waterline. */
  function CapTerm(draft: real, wlArea: real): real
  {
    draft * wlArea
  }

  /** The submerged volume |hull term + cap term|. */
  function Volume(cells: seq<Cell>, draft: real, wlArea: real): (v: real)
    ensures v >= 0.0
    ensures v == HullTerm(cells) + CapTerm(draft, wlArea) || v == -(HullTerm(cells) + CapTerm(draft, wlArea))
  {
    Abs(HullTerm(cells) + CapTerm(draft, wlArea))
  }

  /** |displacement - mass| / mass in float64. */
  function RelativeError(displacement: real, mass: real): (e: RelError)
    ensures mass != 0.0 ==> e.Finite?
    ensures mass > 0.0 ==> e.value >= 0.0
    ensures mass == 0.0 ==> (e == NaN <==> displacement == 0.0)
    ensures mass == 0.0 ==> (e == PosInf <==> displacement != 0.0)
  {
    var num := Abs(displacement - mass);
    if mass != 0.0 then Finite(num / mass)
    else if num == 0.0 then NaN
    else PosInf
  }

  /** relative_error > tolerance in float64: nan never exceeds anything, +inf
      exceeds every finite tolerance. */
  function Exceeds(e: RelError, tolerance: real): bool
  {
    match e
    case Finite(v) => v > tolerance
    case PosInf => true
    case NaN => false
  }

  /** The verdict: pass when within tolerance, otherwise too light when the
      displacement exceeds the mass and too heavy when it does not. */
  function Judge(displacement: real, mass: real, tolerance: real): (v: Verdict)
    ensures v == Pass <==> !Exceeds(RelativeError(displacement, mass), tolerance)
    ensures v == TooLight <==> Exceeds(RelativeError(displacement, mass), tolerance) && displacement > mass
    ensures v == TooHeavy <==> Exceeds(RelativeError(displacement, mass), tolerance) && displacement <= mass
  {
    if !Exceeds(RelativeError(displacement, mass), tolerance) then Pass
    else if displacement - mass > 0.0 then TooLight
    else TooHeavy
  }

  /** verify_hydrostatics from the mesh on, with the option defaults. */
  function VerifyHydrostatics(g: Geometry, mass: real, draft: real,
                              waterDensity: real := DefaultDensity,
                              tolerance: real := DefaultTolerance): (o: Outcome)
    ensures g.Unreadable? <==> o == ReadError
    ensures g.LibraryError? <==> o == Crashed
    ensures o == EmptyClip <==> g.Clipped? && g.clipPoints == 0
    ensures o.Checked? ==> o.volume >= 0.0 && o.displacement == o.volume * waterDensity
  {
    match g
    case Unreadable => ReadError
    case LibraryError => Crashed
    case Clipped(clipPoints, cells, wlPoints, wlTriArea) =>
      if clipPoints == 0 then EmptyClip
      else
        var volume := Volume(cells, draft, WaterlineArea(wlPoints, wlTriArea));
        var displacement := volume * waterDensity;
        Checked(volume, displacement, RelativeError(displacement, mass), Judge(displacement, mass, tolerance))
  }

  /** The process exit status: 1 when the mesh cannot be read or the clip is
      empty; 0 otherwise, including a failed balance (a soft failure) and a
      caught library error. */
  function ExitCode(o: Outcome): (code: int)
    ensures code == 1 <==> o == ReadError || o == EmptyClip
    ensures code == 0 <==> !(o == ReadError || o == EmptyClip)
  {
    if o == ReadError || o == EmptyClip then 1 else 0
  }

  /** A failing balance does not stop the script: it is reported and the
      exit status is still 0. */
  lemma SoftFail(g: Geometry, mass: real, draft: real, rho: real, tol: real)
    requires VerifyHydrostatics(g, mass, draft, rho, tol).Checked?
    ensures ExitCode(VerifyHydrostatics(g, mass, draft, rho, tol)) == 0
  {
  }

  /** For a positive mass the verdict fails exactly when the relative
      imbalance |displacement - mass| / mass exceeds the tolerance. */
  lemma VerdictForPositiveMass(displacement: real, mass: real, tolerance: real)
    requires mass > 0.0
    ensures Judge(displacement, mass, tolerance) != Pass <==> Abs(displacement - mass) / mass > tolerance
  {
  }

  /** The divergence-theorem volume of a box barge: a flat bottom of area A
      at z = zb with outward normal straight down, any number of vertical
      side cells, and a waterline of the same area A at the draft give
      A * (draft - zb), the volume of the submerged box. */
  lemma BoxBargeVolume(sides: seq<Cell>, zb: real, bottomArea: real, draft: real, wlPoints: nat)
    requires forall i :: 0 <= i < |sides| ==> sides[i].nz == 0.0
    requires zb <= draft && 0.0 <= bottomArea && wlPoints > 0
    ensures Volume([Cell(-1.0, zb, bottomArea)] + sides, draft, WaterlineArea(wlPoints, bottomArea))
      == bottomArea * (draft - zb)
  {
    HullTermAppend([Cell(-1.0, zb, bottomArea)], sides);
    VerticalCellsVanish(sides);
    assert [Cell(-1.0, zb, bottomArea)][..0] == [];
    assert HullTerm([Cell(-1.0, zb, bottomArea)]) == -1.0 * zb * bottomArea;
    assert 0.0 <= bottomArea * (draft - zb);
  }
}
