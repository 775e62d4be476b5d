/** The vector-form effective-area calculator
    (analysis/ABmag_SolarPhaseAngle_new.py).

    It takes the two sources as Cartesian direction vectors, converts each to
    the system's own `(phi, theta)` convention, and then runs the same case
    table as the angle form, with two differences: its quadrant classifier is
    half-open at 270 degrees, and its shadow construction clamps the
    cotangent and the offsets instead of producing infinities. It also
    computes the solar phase angle between the two vectors. */
module VectorShadowCalculator {
  import opened Numerics
  import opened Geometry
  import opened Quadrants
  import opened Vectors
  import opened ShadowCalculator

  // ---------------------------------------------------------------------
  // Cartesian direction to (phi, theta)
  // ---------------------------------------------------------------------

  /** An elevation `phi` and an azimuth-like `theta`, in degrees. */
  datatype Direction = Direction(phi: real, theta: real)

  /** Lines 34-39: `asin(z)` in degrees, kept (mod 360) when x > 0 and
      reflected to `180 - asin(z)` otherwise. For an `asin` in [-90, 90]
      degrees, x > 0 lands in the first or fourth quadrant and x <= 0 in
      [90, 270]. */
  function FoldElevation(asinDeg: real, nx: real): (phi: real)
    ensures nx > 0.0 ==> phi == PyMod(asinDeg, 360.0)
    ensures nx <= 0.0 ==> phi + asinDeg == 180.0
    ensures -90.0 <= asinDeg <= 90.0 && nx > 0.0 ==> 0.0 <= phi <= 90.0 || 270.0 <= phi < 360.0
    ensures -90.0 <= asinDeg <= 90.0 && nx <= 0.0 ==> 90.0 <= phi <= 270.0
  {
    if nx > 0.0 then ReducedElevation(asinDeg); PyMod(asinDeg, 360.0) else 180.0 - asinDeg
  }

  /** An elevation in [-90, 90] reduced mod 360 lies in [0, 90] or [270, 360). */
  lemma ReducedElevation(a: real)
    ensures -90.0 <= a <= 90.0 ==> 0.0 <= PyMod(a, 360.0) <= 90.0 || 270.0 <= PyMod(a, 360.0) < 360.0
  {
    if -90.0 <= a < 0.0 {
      PyModShift(a, 360.0, 1);
      PyModOfRange(a + 360.0, 360.0);
    } else if 0.0 <= a <= 90.0 {
      PyModOfRange(a, 360.0);
    }
  }

  /** Line 43: the pole guard, which looks at the folded elevation only. With
      Python's default relative tolerance it accepts every elevation within
      1e-9 degrees of +90 or -90 and nothing further than 2e-7 from them, so
      a folded 270 (straight down) is not caught. */
  predicate AtPole(phiDeg: real)
    ensures AtPole(phiDeg) ==> 89.9999998 <= Abs(phiDeg) <= 90.0000002
    ensures 89.999999999 <= Abs(phiDeg) <= 90.000000001 ==> AtPole(phiDeg)
  {
    IsClose(Abs(phiDeg), 90.0, 0.000000001)
  }

  /** Lines 47-49: `y / cos(phi)` clamped into [-1, 1] before `asin`. */
  function SinTheta(ny: real, cosPhi: real): (s: real)
    requires cosPhi != 0.0
    ensures -1.0 <= s <= 1.0
    ensures -1.0 <= ny / cosPhi <= 1.0 ==> s == ny / cosPhi
    ensures ny / cosPhi > 1.0 ==> s == 1.0
    ensures ny / cosPhi < -1.0 ==> s == -1.0
  {
    Clamp(ny / cosPhi, -1.0, 1.0)
  }

  /** `cartesian_to_spherical`. A vector of norm 0 maps to (0, 0); the only
      failure is the division by `cos(phi)` at line 47, reached whenever the
      pole guard does not fire; the returned `phi` is always reduced into
      [0, 360). */
  function CartesianToSpherical(m: Math, x: real, y: real, z: real): (r: Result<Direction>)
    ensures r.Ok? ==> 0.0 <= r.value.phi < 360.0
    ensures m.sqrt(x * x + y * y + z * z) == 0.0 ==> r == Ok(Direction(0.0, 0.0))
    ensures r.Err? ==> r.error == ZeroDivision
    ensures var n := m.sqrt(x * x + y * y + z * z);
            n != 0.0 ==>
              var phiRad := m.asin(z / n);
              var folded := FoldElevation(Degrees(phiRad), x / n);
              && (AtPole(folded) ==> r == Ok(Direction(PyMod(folded, 360.0), 0.0)))
              && (!AtPole(folded) ==> (r.Err? <==> m.cos(phiRad) == 0.0))
              && (!AtPole(folded) && r.Ok? ==>
                    r == Ok(Direction(PyMod(folded, 360.0), Degrees(m.asin(SinTheta(y / n, m.cos(phiRad)))))))
  {
    var norm := m.sqrt(x * x + y * y + z * z);
    if norm == 0.0 then
      Ok(Direction(0.0, 0.0))
    else
      var nx, ny, nz := x / norm, y / norm, z / norm;
      var phiRad := m.asin(nz);
      var phiDeg := FoldElevation(Degrees(phiRad), nx);
      if AtPole(phiDeg) then
        Ok(Direction(PyMod(phiDeg, 360.0), 0.0))
      else
        var cosPhi := m.cos(phiRad);
        if cosPhi == 0.0 then
          Err(ZeroDivision)
        else
          Ok(Direction(PyMod(phiDeg, 360.0), Degrees(m.asin(SinTheta(ny, cosPhi)))))
  }

  /** With a square root that maps 0 to 0, the zero vector maps to (0, 0). */
  lemma ZeroVectorMapsToOrigin(m: Math)
    requires m.sqrt(0.0) == 0.0
    ensures CartesianToSpherical(m, 0.0, 0.0, 0.0) == Ok(Direction(0.0, 0.0))
  {
  }

  /** The elevation convention: for a positive norm and an `asin` in
      [-pi/2, pi/2], `phi` is `asin(z)` in degrees reduced mod 360 when
      x > 0, and exactly `180 - asin(z)` in degrees when x <= 0. */
  lemma ElevationConvention(m: Math, x: real, y: real, z: real)
    requires m.sqrt(x * x + y * y + z * z) > 0.0
    requires -Pi / 2.0 <= m.asin(z / m.sqrt(x * x + y * y + z * z)) <= Pi / 2.0
    requires CartesianToSpherical(m, x, y, z).Ok?
    ensures var n := m.sqrt(x * x + y * y + z * z);
            var a := Degrees(m.asin(z / n));
            && -90.0 <= a <= 90.0
            && (x > 0.0 ==> CartesianToSpherical(m, x, y, z).value.phi == PyMod(a, 360.0))
            && (x <= 0.0 ==> CartesianToSpherical(m, x, y, z).value.phi == 180.0 - a)
  {
    var n := m.sqrt(x * x + y * y + z * z);
    var a := Degrees(m.asin(z / n));
    assert x > 0.0 <==> x / n > 0.0 by {
      assert x == (x / n) * n;
      if x / n > 0.0 { assert (x / n) * n > 0.0; }
      if x / n <= 0.0 { assert (x / n) * n <= 0.0; }
    }
    if x <= 0.0 {
      PyModOfRange(180.0 - a, 360.0);
    } else {
      PyModOfRange(PyMod(a, 360.0), 360.0);
    }
  }

  /** The guard catches the north pole: straight up (0, 0, 1) folds to
      phi = 90 and gets theta = 0 without dividing. */
  lemma NorthPoleIsGuarded(m: Math)
    requires m.sqrt(1.0) == 1.0
    requires m.asin(1.0) == Pi / 2.0
    ensures CartesianToSpherical(m, 0.0, 0.0, 1.0) == Ok(Direction(90.0, 0.0))
  {
    assert Degrees(Pi / 2.0) == 90.0;
    assert FoldElevation(90.0, 0.0) == 90.0;
    assert AtPole(90.0);
    PyModOfRange(90.0, 360.0);
  }

  /** The guard misses the south pole: straight down (0, 0, -1) folds to
      phi = 270, so line 47 divides by `cos(-pi/2)`, and the conversion fails
      exactly when that cosine is 0. */
  lemma SouthPoleReachesDivision(m: Math)
    requires m.sqrt(1.0) == 1.0
    requires m.asin(-1.0) == -Pi / 2.0
    ensures var r := CartesianToSpherical(m, 0.0, 0.0, -1.0);
            && (r.Err? <==> m.cos(-Pi / 2.0) == 0.0)
            && (r.Ok? ==> r.value.phi == 270.0)
  {
    assert Degrees(-Pi / 2.0) == -90.0;
    assert FoldElevation(-90.0, 0.0) == 270.0;
    assert !AtPole(270.0);
    PyModOfRange(270.0, 360.0);
  }

  // ---------------------------------------------------------------------
  // The clamped shadow construction
  // ---------------------------------------------------------------------

  /** The tolerance that keeps the tangent away from 0 (line 80). */
  const MinTan: real := 0.0000000001

  /** The bound on each offset (lines 85-86). */
  const MaxOffset: real := 1000000.0

  /** Line 80: `1 / max(1e-10, tan(phi))`. The max is signed, so every
      tangent at or below 1e-10, negative ones included, gives 1e10; the
      result is always positive and at most 1e10. */
  function ClampedCot(t: real): (r: real)
    ensures 0.0 < r <= 10000000000.0
    ensures r == 10000000000.0 <==> t <= MinTan
    ensures t >= MinTan ==> r * t == 1.0
  {
    var d := Max(MinTan, t);
    assert d >= MinTan;
    assert 1.0 / d <= 1.0 / MinTan by {
      if t > MinTan { assert 1.0 / d * d == 1.0; assert 1.0 / d * MinTan < 1.0; }
    }
    1.0 / d
  }

  /** Lines 81-86: the offsets, each clamped into [-1e6, 1e6]. */
  function ClampedOffsets(c: Calculator, m: Math, phiDeg: real, thetaDeg: real): (offsets: (real, real))
    ensures -MaxOffset <= offsets.0 <= MaxOffset && -MaxOffset <= offsets.1 <= MaxOffset
    ensures var xo := c.L * ClampedCot(m.tan(Radians(phiDeg))) * m.sin(Radians(thetaDeg));
            && (-MaxOffset <= xo <= MaxOffset ==> offsets.0 == xo)
            && (xo > MaxOffset ==> offsets.0 == MaxOffset)
            && (xo < -MaxOffset ==> offsets.0 == -MaxOffset)
    ensures var yo := c.L * ClampedCot(m.tan(Radians(phiDeg))) * m.cos(Radians(thetaDeg));
            && (-MaxOffset <= yo <= MaxOffset ==> offsets.1 == yo)
            && (yo > MaxOffset ==> offsets.1 == MaxOffset)
            && (yo < -MaxOffset ==> offsets.1 == -MaxOffset)
  {
    var cot := ClampedCot(m.tan(Radians(phiDeg)));
    var theta := Radians(thetaDeg);
    (Clamp(c.L * cot * m.sin(theta), -MaxOffset, MaxOffset),
     Clamp(c.L * cot * m.cos(theta), -MaxOffset, MaxOffset))
  }

  /** Lines 73-94: the light-blocking polygon with clamped offsets. Vertical
      light gives the rectangle [0, D] x [0, L]; otherwise the parallelogram
      whose far edge is the base edge moved by `(-x_offset, y_offset)`, with
      both offsets in [-1e6, 1e6]. Every vertex is finite. */
  function ShadowPolygonClamped(c: Calculator, m: Math, phiDeg: real, thetaDeg: real): (poly: seq<Point>)
    ensures |poly| == 4
    ensures forall k :: 0 <= k < 4 ==> poly[k].IsFinite()
    ensures IsVertical(phiDeg) ==> poly == Rectangle(c.D, c.L)
    ensures !IsVertical(phiDeg) ==>
              var (dx, dy) := ClampedOffsets(c, m, phiDeg, thetaDeg);
              && poly[0] == P(0.0, 0.0)
              && poly[1] == P(c.D, 0.0)
              && poly[2] == P(c.D - dx, dy)
              && poly[3] == P(0.0 - dx, dy)
  {
    if IsVertical(phiDeg) then
      Rectangle(c.D, c.L)
    else
      var (dx, dy) := ClampedOffsets(c, m, phiDeg, thetaDeg);
      [P(0.0, 0.0), P(c.D, 0.0), P(c.D - dx, dy), P(-dx, dy)]
  }

  /** With the light laid flat (phi 0), as the Q1 x Q4 special case passes
      it, the clamped construction stays finite: a cotangent of 1e10 and
      offsets within 1e6. */
  lemma ClampedShadowAtZeroIsFinite(c: Calculator, m: Math, thetaDeg: real)
    requires m.tan(0.0) == 0.0
    ensures !IsVertical(0.0)
    ensures ClampedCot(m.tan(Radians(0.0))) == 10000000000.0
    ensures var poly := ShadowPolygonClamped(c, m, 0.0, thetaDeg);
            forall k :: 0 <= k < 4 ==> poly[k].IsFinite()
  {
    PyModOfRange(0.0, 180.0);
  }

  /** `calculate_shadow`, clamped version. */
  function CalculateShadowClamped(c: Calculator, m: Math, lib: PolygonOps, phiDeg: real, thetaDeg: real)
    : (r: Result<Shadow>)
    ensures var g := lib.intersection(ShadowPolygonClamped(c, m, phiDeg, thetaDeg), Rectangle(c.D, c.H));
            && (g.Empty? ==> r == Ok(Shadow([], 0.0)))
            && (g.Polygon? ==> r == Ok(Shadow(g.exterior, lib.area(g))))
            && (r.Err? <==> g.NonPolygon?)
  {
    ShadowOf(lib, lib.intersection(ShadowPolygonClamped(c, m, phiDeg, thetaDeg), Rectangle(c.D, c.H)))
  }

  /** `calculate_combined_non_shadow` over the clamped shadows. */
  function CombinedNonShadowClamped(c: Calculator, m: Math, lib: PolygonOps,
                                    phiI: real, thetaI: real, phiO: real, thetaO: real): (r: Result<real>)
    ensures var si := CalculateShadowClamped(c, m, lib, phiI, thetaI);
            var so := CalculateShadowClamped(c, m, lib, phiO, thetaO);
            && (r.Ok? <==> si.Ok? && so.Ok?)
            && (r.Ok? ==> r.value == NonShadowArea(c, lib, si.value.vertices, so.value.vertices))
  {
    var si :- CalculateShadowClamped(c, m, lib, phiI, thetaI);
    var so :- CalculateShadowClamped(c, m, lib, phiO, thetaO);
    Ok(NonShadowArea(c, lib, si.vertices, so.vertices))
  }

  /** `calculate_special_case`, with this file's half-open classifier. */
  function SpecialCaseClamped(c: Calculator, m: Math, lib: PolygonOps,
                              phiI: real, thetaI: real, phiO: real, thetaO: real): (r: Result<real>)
    ensures QuadrantHalfOpen(phiI) == Q1 ==>
              r == CombinedNonShadowClamped(c, m, lib, 0.0, thetaI, phiO - 270.0, thetaO)
    ensures QuadrantHalfOpen(phiI) != Q1 ==>
              r == CombinedNonShadowClamped(c, m, lib, phiI - 270.0, thetaI, phiO - 270.0, thetaO)
  {
    var a := SpecialCaseAngles(QuadrantHalfOpen(phiI), phiI, thetaI, phiO, thetaO);
    CombinedNonShadowClamped(c, m, lib, a.phiI, a.thetaI, a.phiO, a.thetaO)
  }

  // ---------------------------------------------------------------------
  // The effective area
  // ---------------------------------------------------------------------

  /** Lines 147-195: the case table on the converted angles, with the
      half-open classifier. */
  function EffectiveAreaFromAngles(c: Calculator, m: Math, lib: PolygonOps,
                                   phiI: real, thetaI: real, phiO: real, thetaO: real): (r: Result<Areas>)
    ensures var qi, qo := QuadrantHalfOpen(phiI), QuadrantHalfOpen(phiO);
            var special := SpecialCaseClamped(c, m, lib, phiI, thetaI, phiO, thetaO);
            && (r.Err? <==> qo == Q4 && qi in {Q1, Q4} && special.Err?)
            && (r.Ok? ==> r.value.chassis == if qi in {Q3, Q4} && qo in {Q3, Q4} then c.aChassis else 0.0)
            && (r.Ok? ==> r.value.sa == if qo == Q3 && qi in {Q2, Q3} then c.aSA
                                        else if qo == Q4 && qi in {Q1, Q4} then special.value
                                        else 0.0)
  {
    var qi := QuadrantHalfOpen(phiI);
    var qo := QuadrantHalfOpen(phiO);
    Resolve(c, CaseTable(qi, qo), SpecialCaseClamped(c, m, lib, phiI, thetaI, phiO, thetaO))
  }

  /** `calculate_effective_area` (vector form): both vectors are converted
      first, and a failed conversion fails the whole computation. */
  function EffectiveAreaFromVectors(c: Calculator, m: Math, lib: PolygonOps, i: Vec3, o: Vec3)
    : (r: Result<Areas>)
    ensures var di := CartesianToSpherical(m, i.x, i.y, i.z);
            var do := CartesianToSpherical(m, o.x, o.y, o.z);
            && (di.Err? || do.Err? ==> r.Err? && r.error == ZeroDivision)
            && (di.Ok? && do.Ok? ==>
                  r == EffectiveAreaFromAngles(c, m, lib, di.value.phi, di.value.theta, do.value.phi, do.value.theta))
  {
    var di :- CartesianToSpherical(m, i.x, i.y, i.z);
    var do :- CartesianToSpherical(m, o.x, o.y, o.z);
    EffectiveAreaFromAngles(c, m, lib, di.phi, di.theta, do.phi, do.theta)
  }

  /** The converted elevations lie in [0, 360), so in the vector form the
      special-case remap always yields adjusted elevations in [0, 90). */
  lemma VectorSpecialAnglesInFirstQuadrant(m: Math, i: Vec3, o: Vec3)
    requires CartesianToSpherical(m, i.x, i.y, i.z).Ok?
    requires CartesianToSpherical(m, o.x, o.y, o.z).Ok?
    requires var di, do := CartesianToSpherical(m, i.x, i.y, i.z).value, CartesianToSpherical(m, o.x, o.y, o.z).value;
             CaseTable(QuadrantHalfOpen(di.phi), QuadrantHalfOpen(do.phi)).sa == SaSpecial
    ensures var di, do := CartesianToSpherical(m, i.x, i.y, i.z).value, CartesianToSpherical(m, o.x, o.y, o.z).value;
            var a := SpecialCaseAngles(QuadrantHalfOpen(di.phi), di.phi, di.theta, do.phi, do.theta);
            0.0 <= a.phiI < 90.0 && 0.0 <= a.phiO < 90.0
  {
    var di := CartesianToSpherical(m, i.x, i.y, i.z).value;
    var do := CartesianToSpherical(m, o.x, o.y, o.z).value;
    PyModOfRange(di.phi, 360.0);
    PyModOfRange(do.phi, 360.0);
  }

  /** Away from 270 degrees the two calculators pick the same table entry,
      and wherever that entry is not a special case they return the same
      areas. */
  lemma VariantsAgreeAwayFrom270(c: Calculator, m: Math, lib: PolygonOps,
                                 phiI: real, thetaI: real, phiO: real, thetaO: real)
    requires Norm360(phiI) != 270.0 && Norm360(phiO) != 270.0
    ensures CaseTable(QuadrantClosed(phiI), QuadrantClosed(phiO))
            == CaseTable(QuadrantHalfOpen(phiI), QuadrantHalfOpen(phiO))
    ensures CaseTable(QuadrantClosed(phiI), QuadrantClosed(phiO)).sa != SaSpecial ==>
              EffectiveAreaUnclamped(c, m, lib, phiI, thetaI, phiO, thetaO)
              == EffectiveAreaFromAngles(c, m, lib, phiI, thetaI, phiO, thetaO)
  {
    QuadrantsDisagreeOnlyAt270(phiI);
    QuadrantsDisagreeOnlyAt270(phiO);
  }

  /** At 270 they differ: with the Sun at 225 and the observer at 270 the
      angle form reads case Q3 x Q3 (full panel and chassis) while the
      vector form reads Q3 x Q4 (chassis only). */
  lemma VariantsDifferAt270(c: Calculator, m: Math, lib: PolygonOps)
    ensures EffectiveAreaUnclamped(c, m, lib, 225.0, 0.0, 270.0, 0.0) == Ok(Areas(c.aSA, c.aChassis))
    ensures EffectiveAreaFromAngles(c, m, lib, 225.0, 0.0, 270.0, 0.0) == Ok(Areas(0.0, c.aChassis))
  {
    PyModOfRange(225.0, 360.0);
    PyModOfRange(270.0, 360.0);
  }

  // ---------------------------------------------------------------------
  // The solar phase angle
  // ---------------------------------------------------------------------

  /** Lines 208-211: the normalised dot product, clamped into [-1, 1]. */
  function PhaseCosine(i: Vec3, o: Vec3, ni: real, no: real): (s: real)
    requires ni != 0.0 && no != 0.0
    ensures -1.0 <= s <= 1.0
    ensures -1.0 <= Dot(i, o) / (ni * no) <= 1.0 ==> s == Dot(i, o) / (ni * no)
    ensures Dot(i, o) / (ni * no) > 1.0 ==> s == 1.0
    ensures Dot(i, o) / (ni * no) < -1.0 ==> s == -1.0
  {
    Clamp(Dot(i, o) / (ni * no), -1.0, 1.0)
  }

  /** `calculate_solar_phase_angle`: 0 when either vector has norm 0,
      otherwise `acos` (in degrees) of the clamped normalised dot product. */
  function SolarPhaseAngle(m: Math, i: Vec3, o: Vec3): (r: real)
    ensures var ni, no := m.sqrt(Dot(i, i)), m.sqrt(Dot(o, o));
            && (ni == 0.0 || no == 0.0 ==> r == 0.0)
            && (ni != 0.0 && no != 0.0 ==> r == Degrees(m.acos(PhaseCosine(i, o, ni, no))))
  {
    var ni := m.sqrt(Dot(i, i));
    var no := m.sqrt(Dot(o, o));
    if ni == 0.0 || no == 0.0 then 0.0
    else Degrees(m.acos(PhaseCosine(i, o, ni, no)))
  }

  /** The phase angle does not depend on which vector is the Sun. */
  lemma SolarPhaseAngleSymmetric(m: Math, i: Vec3, o: Vec3)
    ensures SolarPhaseAngle(m, i, o) == SolarPhaseAngle(m, o, i)
  {
    var ni, no := m.sqrt(Dot(i, i)), m.sqrt(Dot(o, o));
    if ni != 0.0 && no != 0.0 {
      assert Dot(i, o) == Dot(o, i);
      assert ni * no == no * ni;
    }
  }
}
