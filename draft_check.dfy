/** The configured-versus-computed draft check of the analysis script
    (scripts/analysis/verify_hydrostatics.py): the mass and the configured
    water level are scraped from the case's OpenFOAM dictionaries, the
    equilibrium water level is computed by calculate_draft with density
    1025, and the check passes when the configured level lies within 0.05 m
    of the computed level plus an empirical offset. The file system and the
    regular-expression search are inputs: each dictionary is given by
    whether it exists and by the first capture group of the search. */
module DraftCheck {
  import opened Wrappers
  import opened RealArith
  import Draft

  const DefaultOffset: real := 0.10
  const DraftTolerance: real := 0.05
  const SeaWater: real := 1025.0

  // ---------------------------------------------------------------------
  // Decimal numerals, as float() reads the strings the two searches can
  // capture (digits, '.' and '-').
  // ---------------------------------------------------------------------

  predicate IsDigit(c: char)
  {
    '0' <= c <= '9'
  }

  predicate AllDigits(s: string)
  {
    forall i :: 0 <= i < |s| ==> IsDigit(s[i])
  }

  function DigitValue(c: char): nat
    requires IsDigit(c)
  {
    c as int - '0' as int
  }

  /** The value of a string of decimal digits (0 for the empty string). */
  function IntValue(s: string): nat
    requires AllDigits(s)
  {
    if |s| == 0 then 0 else 10 * IntValue(s[..|s| - 1]) + DigitValue(s[|s| - 1])
  }

  /** The value of the digits after a decimal point. */
  function FracValue(s: string): real
    requires AllDigits(s)
  {
    if |s| == 0 then 0.0 else (DigitValue(s[0]) as real + FracValue(s[1..])) / 10.0
  }

  /** The position of the first '.', or |s| when there is none. */
  function IndexOfDot(s: string): (k: nat)
    ensures k <= |s|
    ensures forall i :: 0 <= i < k ==> s[i] != '.'
    ensures k < |s| ==> s[k] == '.'
  {
    if |s| == 0 then 0
    else if s[0] == '.' then 0
    else 1 + IndexOfDot(s[1..])
  }

  /** float() of an unsigned numeral: digits with at most one '.', and at
      least one digit on either side of it. */
  function ParseUnsigned(s: string): Option<real>
  {
    var k := IndexOfDot(s);
    if k == |s| then
      if |s| > 0 && AllDigits(s) then Some(IntValue(s) as real) else None
    else
      var whole, frac := s[..k], s[k + 1..];
      if AllDigits(whole) && AllDigits(frac) && |whole| + |frac| > 0
      then Some(IntValue(whole) as real + FracValue(frac))
      else None
  }

  /** float() of a captured group: an optional leading '-' and an unsigned
      numeral; None where float() raises ValueError. */
  function ParseFloat(s: string): (r: Option<real>)
    ensures |s| > 0 && s[0] == '-' ==>
      (r.Some? <==> ParseUnsigned(s[1..]).Some?) && (r.Some? ==> r.value == -ParseUnsigned(s[1..]).value)
    ensures (|s| == 0 || s[0] != '-') ==> r == ParseUnsigned(s)
  {
    if |s| > 0 && s[0] == '-' then
      match ParseUnsigned(s[1..])
      case None => None
      case Some(v) => Some(-v)
    else ParseUnsigned(s)
  }

  /** The strings float() accepts, stated independently of the parser:
      non-empty, only digits and '.', at most one '.', at least one digit. */
  predicate DecimalShape(s: string)
  {
    && |s| > 0
    && (forall i :: 0 <= i < |s| ==> IsDigit(s[i]) || s[i] == '.')
    && multiset(s)['.'] <= 1
    && (exists i :: 0 <= i < |s| && IsDigit(s[i]))
  }

  /** Every string the parser accepts has the decimal shape. */
  lemma ParsedHasShape(s: string)
    requires ParseUnsigned(s).Some?
    ensures DecimalShape(s)
  {
    var k := IndexOfDot(s);
    if k == |s| {
      assert '.' !in s;
      assert '.' !in multiset(s);
      assert IsDigit(s[0]);
    } else {
      var whole, frac := s[..k], s[k + 1..];
      assert s == whole + [s[k]] + frac;
      assert multiset(s) == multiset(whole) + multiset{'.'} + multiset(frac);
      assert '.' !in whole && '.' !in frac;
      assert '.' !in multiset(whole) && '.' !in multiset(frac);
      forall i | 0 <= i < |s| ensures IsDigit(s[i]) || s[i] == '.' {
        if i < k { assert s[i] == whole[i]; }
        else if i > k { assert s[i] == frac[i - k - 1]; }
      }
      if |whole| > 0 { assert IsDigit(s[0]); } else { assert IsDigit(s[k + 1]); }
    }
  }

  /** Every string of the decimal shape is accepted. */
  lemma ShapeIsParsed(s: string)
    requires DecimalShape(s)
    ensures ParseUnsigned(s).Some?
  {
    var k := IndexOfDot(s);
    if k < |s| {
      var whole, frac := s[..k], s[k + 1..];
      DotIsLast(s, k);
      assert AllDigits(frac) by {
        forall i | 0 <= i < |frac| ensures IsDigit(frac[i]) {
          assert frac[i] == s[k + 1 + i];
        }
      }
      assert AllDigits(whole) by {
        forall i | 0 <= i < |whole| ensures IsDigit(whole[i]) {
          assert whole[i] == s[i];
        }
      }
      var d :| 0 <= d < |s| && IsDigit(s[d]);
      assert d != k;
    }
  }

  /** With at most one '.', nothing after the first one is a '.'. */
  lemma DotIsLast(s: string, k: nat)
    requires k < |s| && s[k] == '.' && multiset(s)['.'] <= 1
    ensures forall i :: k < i < |s| ==> s[i] != '.'
  {
    var head, tail := s[..k + 1], s[k + 1..];
    assert s == head + tail;
    assert multiset(s) == multiset(head) + multiset(tail);
    assert head[k] == '.';
    assert '.' in multiset(head);
    assert '.' !in multiset(tail);
    forall i | k < i < |s| ensures s[i] != '.' {
      assert s[i] == tail[i - k - 1];
      assert tail[i - k - 1] in multiset(tail);
    }
  }

  /** The parser accepts exactly the decimal shapes. */
  lemma UnsignedAcceptsIff(s: string)
    ensures ParseUnsigned(s).Some? <==> DecimalShape(s)
  {
    if ParseUnsigned(s).Some? { ParsedHasShape(s); }
    if DecimalShape(s) { ShapeIsParsed(s); }
  }

  /** The decimal rendering of a natural number. */
  function NatString(n: nat): (s: string)
    ensures |s| > 0 && AllDigits(s)
  {
    var last := ['0' + (n % 10) as char];
    if n < 10 then last else NatString(n / 10) + last
  }

  lemma {:induction false} NatStringValue(n: nat)
    ensures IntValue(NatString(n)) == n
  {
    var s := NatString(n);
    if n >= 10 {
      NatStringValue(n / 10);
      assert s[..|s| - 1] == NatString(n / 10);
    }
  }

  /** float() reads back every natural number written in decimal, with or
      without a minus sign. */
  lemma ParseNatString(n: nat)
    ensures ParseFloat(NatString(n)) == Some(n as real)
    ensures ParseFloat("-" + NatString(n)) == Some(-(n as real))
  {
    var s := NatString(n);
    NatStringValue(n);
    assert IsDigit(s[0]);
    assert IndexOfDot(s) == |s| by {
      assert forall i :: 0 <= i < |s| ==> s[i] != '.';
    }
    assert ("-" + s)[1..] == s;
  }

  /** The numerals with a fractional part read as whole part plus fraction:
      "3.25" is 3.25 and "-.5" is -0.5. */
  lemma ParseFractions()
    ensures ParseFloat("3.25") == Some(3.25)
    ensures ParseFloat("-.5") == Some(-0.5)
  {
    assert IndexOfDot("3.25") == 1;
    assert "3.25"[..1] == "3" && "3.25"[2..] == "25";
    assert "25"[1..] == "5" && "5"[1..] == "";
    assert IntValue("3") == 3 by { assert "3"[..0] == ""; }
    assert FracValue("25") == 0.25;
    assert "-.5"[1..] == ".5";
    assert IndexOfDot(".5") == 0 && ".5"[..0] == "" && ".5"[1..] == "5";
    assert FracValue("5") == 0.5;
  }

  /** A lone point, a second point and a lone minus sign make float() raise. */
  lemma ParseRejects()
    ensures ParseFloat(".") == None && ParseFloat("1.2.3") == None && ParseFloat("-") == None
  {
    assert IndexOfDot(".") == 0 && "."[1..] == "";
    assert IndexOfDot("1.2.3") == 1 && "1.2.3"[2..] == "2.3";
    assert !AllDigits("2.3") by { assert "2.3"[1] == '.'; }
  }

  function Pow10(n: nat): (p: nat)
    ensures p >= 1
  {
    if n == 0 then 1 else 10 * Pow10(n - 1)
  }

  /** The value of the numeral w.f read the schoolbook way: the whole part,
      plus the fractional digits as a whole number over 10^|f|. */
  function DecimalValue(w: string, f: string): real
    requires AllDigits(w) && AllDigits(f)
  {
    IntValue(w) as real + IntValue(f) as real / Pow10(|f|) as real
  }

  /** Reading a concatenation of digit strings: the left part is shifted by
      one decimal place per digit of the right part. */
  lemma {:induction false} IntValueConcat(a: string, b: string)
    requires AllDigits(a) && AllDigits(b)
    ensures AllDigits(a + b)
    ensures IntValue(a + b) == IntValue(a) * Pow10(|b|) + IntValue(b)
  {
    assert AllDigits(a + b) by {
      forall i | 0 <= i < |a + b| ensures IsDigit((a + b)[i]) {
        if i < |a| { assert (a + b)[i] == a[i]; } else { assert (a + b)[i] == b[i - |a|]; }
      }
    }
    if |b| == 0 {
      assert a + b == a;
    } else {
      var b' := b[..|b| - 1];
      var d := DigitValue(b[|b| - 1]);
      assert (a + b)[..|a + b| - 1] == a + b';
      assert (a + b)[|a + b| - 1] == b[|b| - 1];
      IntValueConcat(a, b');
      var x, y, p := IntValue(a), IntValue(b'), Pow10(|b'|);
      assert IntValue(a + b) == 10 * (x * p + y) + d;
      assert IntValue(b) == 10 * y + d;
      assert Pow10(|b|) == 10 * p;
      ShiftDigit(x, y, p, d);
    }
  }

  lemma ShiftDigit(x: int, y: int, p: int, d: int)
    ensures 10 * (x * p + y) + d == x * (10 * p) + (10 * y + d)
  {
  }

  /** The digits after the point, read head first as FracValue does, scaled
      by 10^|f| give the same digits read tail first as a whole number. The
      three readings are passed in as values fv, scale and whole. */
  lemma {:induction false} FracValueScaled(f: string, fv: real, scale: nat, whole: nat)
    requires AllDigits(f)
    requires fv == FracValue(f) && scale == Pow10(|f|) && whole == IntValue(f)
    ensures fv * scale as real == whole as real
  {
    if |f| > 0 {
      var rest := f[1..];
      assert AllDigits(rest) by {
        forall i | 0 <= i < |rest| ensures IsDigit(rest[i]) { assert rest[i] == f[i + 1]; }
      }
      var n, q, p, low := DigitValue(f[0]), FracValue(rest), Pow10(|rest|), IntValue(rest);
      FracValueScaled(rest, q, p, low);
      assert whole == n * p + low by {
        var head := [f[0]];
        assert AllDigits(head);
        assert f == head + rest;
        IntValueConcat(head, rest);
        assert IntValue(head) == n by { assert head[..0] == ""; }
      }
      ShiftFraction(n, q, p, fv, scale, low, whole);
    }
  }

  lemma ShiftFraction(n: nat, q: real, p: nat, lhs: real, scale: nat, low: nat, whole: nat)
    requires lhs == (n as real + q) / 10.0 && scale == 10 * p
    requires q * p as real == low as real && whole == n * p + low
    ensures lhs * scale as real == whole as real
  {
    assert lhs * scale as real == n as real * p as real + q * p as real;
  }

  /** The fractional digits are worth their whole-number reading over 10^|f|. */
  lemma FracValueQuotient(f: string)
    requires AllDigits(f)
    ensures FracValue(f) == IntValue(f) as real / Pow10(|f|) as real
  {
    var fv, scale, whole := FracValue(f), Pow10(|f|), IntValue(f);
    FracValueScaled(f, fv, scale, whole);
    DivideOut(fv, scale, whole);
  }

  lemma DivideOut(fv: real, scale: nat, whole: nat)
    requires scale >= 1 && fv * scale as real == whole as real
    ensures fv == whole as real / scale as real
  {
  }

  /** float() of "w.f" and of "-w.f", for any digit strings w and f that are
      not both empty, is the schoolbook value of the numeral. */
  lemma ParseDecimal(w: string, f: string)
    requires AllDigits(w) && AllDigits(f) && |w| + |f| > 0
    ensures ParseFloat(w + "." + f) == Some(DecimalValue(w, f))
    ensures ParseFloat("-" + w + "." + f) == Some(-DecimalValue(w, f))
  {
    var s := w + "." + f;
    assert ParseUnsigned(s) == Some(IntValue(w) as real + FracValue(f)) by {
      var k := IndexOfDot(s);
      assert s[|w|] == '.';
      assert forall i :: 0 <= i < |w| ==> s[i] == w[i] && s[i] != '.';
      assert s[..k] == w && s[k + 1..] == f;
    }
    FracValueQuotient(f);
    assert s[0] != '-' by {
      if |w| > 0 { assert s[0] == w[0]; }
    }
    assert ("-" + w + "." + f)[1..] == s;
  }

  // ---------------------------------------------------------------------
  // parse_openfoam_value and main
  // ---------------------------------------------------------------------

  /** One dictionary file: missing, present with no match, or present with
      the first capture group of the first match. */
  datatype Lookup = Missing | NoMatch | Match(group: string)

  /** What parse_openfoam_value yields: a value, None, or the ValueError
      float() raises on a capture it cannot read. */
  datatype Parsed = NoValue | Value(v: real) | Unreadable

  /** parse_openfoam_value past the file read and the search. */
  function ParseOpenFoamValue(l: Lookup): (p: Parsed)
    ensures l.Missing? || l.NoMatch? ==> p == NoValue
    ensures l.Match? ==> (p.Value? <==> ParseFloat(l.group).Some?)
    ensures l.Match? && p.Value? ==> p.v == ParseFloat(l.group).value
    ensures p != NoValue ==> l.Match?
  {
    match l
    case Missing => NoValue
    case NoMatch => NoValue
    case Match(g) => if ParseFloat(g).Some? then Value(ParseFloat(g).value) else Unreadable
  }

  /** The first of two candidate paths that exists (the second when neither
      does). */
  function FirstPresent(primary: Lookup, fallback: Lookup): (l: Lookup)
    ensures !primary.Missing? ==> l == primary
    ensures primary.Missing? ==> l == fallback
  {
    if primary.Missing? then fallback else primary
  }

  /** The hull surface as calculate_draft sees it: its z bounds and its
      slice at each of the 200 levels. */
  datatype HullMesh = HullMesh(zMin: real, zMax: real, probes: seq<Draft.SliceProbe>)

  predicate Sliced(h: Option<HullMesh>)
  {
    h.Some? ==> |h.value.probes| == Draft.Levels
  }

  /** Where main stops. Compared carries the computed level, the target
      (computed plus offset), the configured level and their distance. */
  datatype Verdict =
    | Usage
    | BadOffset
    | NoMass
    | BadMass
    | NoWaterLevel
    | BadWaterLevel
    | NoHull
    | Compared(zCalc: real, zTarget: real, zSet: real, diff: real)

  /** main of the analysis script. argc is len(sys.argv); offsetArg is
      float(sys.argv[2]) (None where it raises), read only when argc > 2.
      The mass comes from dynamicMesh.6dof.empty, else dynamicMesh_active;
      the water level from setFields.still, else setFields_active; the hull
      from the case's hull.stl, else the template's. */
  function VerifyCase(argc: nat, offsetArg: Option<real>,
                      massPrimary: Lookup, massFallback: Lookup,
                      levelPrimary: Lookup, levelFallback: Lookup,
                      hullPrimary: Option<HullMesh>, hullFallback: Option<HullMesh>): (r: Verdict)
    requires Sliced(hullPrimary) && Sliced(hullFallback)
    ensures r == Usage <==> argc < 2
    ensures r.Compared? ==> r.diff == Abs(r.zSet - r.zTarget)
    ensures r.Compared? && argc == 2 ==> r.zTarget == r.zCalc + DefaultOffset
    ensures r.Compared? && argc > 2 ==> offsetArg.Some? && r.zTarget == r.zCalc + offsetArg.value
    ensures r.Compared? ==> ParseOpenFoamValue(FirstPresent(levelPrimary, levelFallback)) == Value(r.zSet)
  {
    if argc < 2 then Usage
    else if argc > 2 && offsetArg.None? then BadOffset
    else
      var offset := if argc > 2 then offsetArg.value else DefaultOffset;
      match ParseOpenFoamValue(FirstPresent(massPrimary, massFallback))
      case NoValue => NoMass
      case Unreadable => BadMass
      case Value(mass) =>
        match ParseOpenFoamValue(FirstPresent(levelPrimary, levelFallback))
        case NoValue => NoWaterLevel
        case Unreadable => BadWaterLevel
        case Value(zSet) =>
          var hull := if hullPrimary.Some? then hullPrimary else hullFallback;
          if hull.None? then NoHull
          else
            var h := hull.value;
            var zCalc := Draft.DraftOutcome(h.zMin, h.zMax, h.probes, mass, SeaWater).z;
            var zTarget := zCalc + offset;
            Compared(zCalc, zTarget, zSet, Abs(zSet - zTarget))
  }

  /** The exit status: 0 only when the distance is within the tolerance;
      every other stop, including the uncaught ValueError of an unreadable
      number, exits 1. */
  function ExitCode(r: Verdict): (code: int)
    ensures code == 0 <==> r.Compared? && r.diff <= DraftTolerance
    ensures code == 1 <==> !(r.Compared? && r.diff <= DraftTolerance)
  {
    if r.Compared? && r.diff <= DraftTolerance then 0 else 1
  }

  /** A configured level exactly 0.05 m from the target passes; anything
      farther fails. */
  lemma ToleranceBoundary(zCalc: real, zTarget: real, zSet: real)
    ensures ExitCode(Compared(zCalc, zTarget, zSet, Abs(zSet - zTarget))) == 0
      <==> zTarget - 0.05 <= zSet <= zTarget + 0.05
  {
  }

  /** Without a readable mass the script stops with status 1 whatever the
      water level and the hull. */
  lemma MissingMassStops(argc: nat, offsetArg: Option<real>, massPrimary: Lookup, massFallback: Lookup)
    requires argc >= 2 && (argc > 2 ==> offsetArg.Some?)
    requires FirstPresent(massPrimary, massFallback).Missing? || FirstPresent(massPrimary, massFallback).NoMatch?
    ensures forall lp, lf, hp, hf :: Sliced(hp) && Sliced(hf) ==>
      VerifyCase(argc, offsetArg, massPrimary, massFallback, lp, lf, hp, hf) == NoMass
  {
  }

  /** Without a readable water level it stops with status 1 before the hull
      is looked for or the draft computed, wherever the mass was read. */
  lemma MissingWaterLevelStops(argc: nat, offsetArg: Option<real>,
                               massPrimary: Lookup, massFallback: Lookup,
                               levelPrimary: Lookup, levelFallback: Lookup)
    requires argc >= 2 && (argc > 2 ==> offsetArg.Some?)
    requires ParseOpenFoamValue(FirstPresent(massPrimary, massFallback)).Value?
    requires FirstPresent(levelPrimary, levelFallback).Missing? || FirstPresent(levelPrimary, levelFallback).NoMatch?
    ensures forall hp, hf :: Sliced(hp) && Sliced(hf) ==>
      VerifyCase(argc, offsetArg, massPrimary, massFallback, levelPrimary, levelFallback, hp, hf) == NoWaterLevel
  {
  }

  /** With a mass, a water level and a hull found (in the case or in the
      template), the check passes exactly when the configured water level is
      within 0.05 m of calculate_draft's level plus the offset: the command
      line's when given, 0.10 m otherwise. */
  lemma PassIff(argc: nat, offsetArg: Option<real>,
                massPrimary: Lookup, massFallback: Lookup,
                levelPrimary: Lookup, levelFallback: Lookup,
                hullPrimary: Option<HullMesh>, hullFallback: Option<HullMesh>,
                mass: real, zSet: real, h: HullMesh)
    requires argc >= 2 && (argc > 2 ==> offsetArg.Some?)
    requires Sliced(hullPrimary) && Sliced(hullFallback)
    requires ParseOpenFoamValue(FirstPresent(massPrimary, massFallback)) == Value(mass)
    requires ParseOpenFoamValue(FirstPresent(levelPrimary, levelFallback)) == Value(zSet)
    requires (if hullPrimary.Some? then hullPrimary else hullFallback) == Some(h)
    ensures var offset := if argc > 2 then offsetArg.value else DefaultOffset;
      var zCalc := Draft.DraftOutcome(h.zMin, h.zMax, h.probes, mass, SeaWater).z;
      ExitCode(VerifyCase(argc, offsetArg, massPrimary, massFallback, levelPrimary, levelFallback,
                          hullPrimary, hullFallback)) == 0
      <==> Abs(zSet - (zCalc + offset)) <= DraftTolerance
  {
  }
}
