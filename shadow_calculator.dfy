/** The angle-form effective-area calculator (Effective_Area_Calculation.py).

    A rectangular solar-array panel D x H is lit by two sources, the Sun (i)
    and the observer (o), each given as an elevation `phi` and an azimuth-like
    `theta` in degrees. The quadrants of the two elevations select an entry of
    a fixed case table; two entries need the area of the panel left unshadowed
    by both sources, computed with the polygon library.

    The case table, the calculator record and the polygon plumbing defined here
    are shared with the vector-form calculator. */
module ShadowCalculator {
  import opened Numerics
  import opened Geometry
  import opened Quadrants

  /** The default dimensions, in metres. */
  const DefaultL: real := 1.3
  const DefaultD: real := 2.8
  const DefaultH: real := 8.1

  /** The dimensions, fixed at construction, and the two reference areas
      computed from them: the solar array D x H and the chassis L x D. */
  datatype Calculator = Calculator(L: real, D: real, H: real) {
    const aSA: real := D * H
    const aChassis: real := L * D
  }

  /** `ShadowCalculator.__init__`: a dimension that is not given takes its
      default. */
  function NewCalculator(l: Option<real>, d: Option<real>, h: Option<real>): (c: Calculator)
    ensures c.L == (if l.Some? then l.value else DefaultL)
    ensures c.D == (if d.Some? then d.value else DefaultD)
    ensures c.H == (if h.Some? then h.value else DefaultH)
  {
    var L := l.GetOr(DefaultL);
    var D := d.GetOr(DefaultD);
    var H := h.GetOr(DefaultH);
    Calculator(L, D, H)
  }

  /** With the defaults the reference areas are 22.68 and 3.64 square metres. */
  lemma DefaultAreas()
    ensures NewCalculator(None, None, None).aSA == 22.68
    ensures NewCalculator(None, None, None).aChassis == 3.64
  {
  }

  // ---------------------------------------------------------------------
  // The case table
  // ---------------------------------------------------------------------

  /** What the solar-array area is in one entry of the table. */
  datatype SaCase = SaZero | SaFull | SaSpecial

  /** What the chassis area is in one entry of the table. */
  datatype ChassisCase = ChassisZero | ChassisFull

  datatype Case = Case(sa: SaCase, chassis: ChassisCase)

  /** The case table of `calculate_effective_area`, made total: eight pairs
      are assigned by the source, the other eight keep the zero values the
      two results were initialised with. */
  function CaseTable(qi: Quad, qo: Quad): (k: Case)
    ensures k.chassis == ChassisFull <==> qi in {Q3, Q4} && qo in {Q3, Q4}
    ensures k.sa == SaFull <==> qo == Q3 && qi in {Q2, Q3}
    ensures k.sa == SaSpecial <==> qo == Q4 && qi in {Q1, Q4}
    ensures qo in {Q1, Q2} ==> k == Case(SaZero, ChassisZero)
  {
    match (qi, qo)
    case (Q1, Q3) => Case(SaZero, ChassisZero)
    case (Q1, Q4) => Case(SaSpecial, ChassisZero)
    case (Q2, Q3) => Case(SaFull, ChassisZero)
    case (Q2, Q4) => Case(SaZero, ChassisZero)
    case (Q3, Q3) => Case(SaFull, ChassisFull)
    case (Q3, Q4) => Case(SaZero, ChassisFull)
    case (Q4, Q3) => Case(SaZero, ChassisFull)
    case (Q4, Q4) => Case(SaSpecial, ChassisFull)
    case _ => Case(SaZero, ChassisZero)
  }

  /** The pair `(A_eff_SA, A_eff_chassis)`. */
  datatype Areas = Areas(sa: real, chassis: real)

  /** The areas one table entry stands for; `special` is the special-case
      computation, consulted only by the two special entries. */
  function Resolve(c: Calculator, k: Case, special: Result<real>): (r: Result<Areas>)
    ensures r.Err? <==> k.sa == SaSpecial && special.Err?
    ensures r.Ok? ==> r.value.chassis == (if k.chassis == ChassisFull then c.aChassis else 0.0)
    ensures r.Ok? ==> r.value.sa == (match k.sa
                                     case SaZero => 0.0
                                     case SaFull => c.aSA
                                     case SaSpecial => special.value)
  {
    var sa :- match k.sa
              case SaZero => Ok(0.0)
              case SaFull => Ok(c.aSA)
              case SaSpecial => special;
    Ok(Areas(sa, if k.chassis == ChassisFull then c.aChassis else 0.0))
  }

  // ---------------------------------------------------------------------
  // The shadow of one source
  // ---------------------------------------------------------------------

  /** `math.isclose(phi_deg % 180, 90, abs_tol=1e-9)`: the light is vertical.
      With Python's default relative tolerance this accepts every angle
      within 1e-9 degrees of 90 (mod 180) and nothing further than 2e-7
      degrees from it. */
  predicate IsVertical(phiDeg: real)
    ensures IsVertical(phiDeg) ==> 89.9999998 <= PyMod(phiDeg, 180.0) <= 90.0000002
    ensures 89.999999999 <= PyMod(phiDeg, 180.0) <= 90.000000001 ==> IsVertical(phiDeg)
  {
    IsClose(PyMod(phiDeg, 180.0), 90.0, 0.000000001)
  }

  /** Every angle of the form 90 + 180k is vertical. */
  lemma VerticalAtRightAngles(k: int)
    ensures IsVertical(90.0 + 180.0 * k as real)
  {
    PyModShift(90.0, 180.0, k);
    PyModOfRange(90.0, 180.0);
  }

  /** Line 44: `1 / tan(phi)`, or +infinity when the tangent is exactly 0. */
  function CotUnclamped(t: real): (r: Float)
    ensures r == PosInf <==> t == 0.0
    ensures t != 0.0 ==> r == Finite(1.0 / t) && r.val * t == 1.0
  {
    if t != 0.0 then Finite(1.0 / t) else PosInf
  }

  /** Lines 44-46: the offsets `(x_offset, y_offset)` of the shadow's far
      edge, `L * cot(phi) * sin(theta)` and `L * cot(phi) * cos(theta)`,
      evaluated left to right in floating point. */
  function UnclampedOffsets(c: Calculator, m: Math, phiDeg: real, thetaDeg: real): (offsets: (Float, Float))
    ensures var t := m.tan(Radians(phiDeg));
            t != 0.0 ==>
              && offsets.0 == Finite(c.L * (1.0 / t) * m.sin(Radians(thetaDeg)))
              && offsets.1 == Finite(c.L * (1.0 / t) * m.cos(Radians(thetaDeg)))
    ensures m.tan(Radians(phiDeg)) == 0.0 ==> !offsets.0.Finite? && !offsets.1.Finite?
  {
    var lCot := FMul(Finite(c.L), CotUnclamped(m.tan(Radians(phiDeg))));
    var theta := Radians(thetaDeg);
    (FMul(lCot, Finite(m.sin(theta))), FMul(lCot, Finite(m.cos(theta))))
  }

  /** Adding a float to zero returns it unchanged. */
  lemma ZeroPlus(a: Float)
    ensures FAdd(Finite(0.0), a) == a
  {
  }

  /** Lines 38-54: the light-blocking polygon. Vertical light gives the
      rectangle [0, D] x [0, L]; otherwise it is the parallelogram whose far
      edge is the panel's base edge moved by `(-x_offset, y_offset)`. */
  function ShadowPolygonUnclamped(c: Calculator, m: Math, phiDeg: real, thetaDeg: real): (poly: seq<Point>)
    ensures |poly| == 4
    ensures IsVertical(phiDeg) ==> poly == Rectangle(c.D, c.L)
    ensures !IsVertical(phiDeg) ==>
              var (dx, dy) := UnclampedOffsets(c, m, phiDeg, thetaDeg);
              && poly[0] == P(0.0, 0.0)
              && poly[1] == P(c.D, 0.0)
              && poly[2] == Translate(poly[1], FNeg(dx), dy)
              && poly[3] == Translate(poly[0], FNeg(dx), dy)
  {
    if IsVertical(phiDeg) then
      Rectangle(c.D, c.L)
    else
      var (dx, dy) := UnclampedOffsets(c, m, phiDeg, thetaDeg);
      ZeroPlus(dy);
      ZeroPlus(FNeg(dx));
      [P(0.0, 0.0), P(c.D, 0.0), Point(FSub(Finite(c.D), dx), dy), Point(FNeg(dx), dy)]
  }

  /** The shadow a source casts on the panel: its outer ring and its area. */
  datatype Shadow = Shadow(vertices: seq<Point>, area: real)

  /** Lines 62-71: an empty intersection has no vertices and no area; a
      polygon gives its outer ring and area; any other non-empty geometry has
      no `exterior`, and asking for it raises. */
  function ShadowOf(lib: PolygonOps, g: Geometry): (r: Result<Shadow>)
    ensures g.Empty? ==> r == Ok(Shadow([], 0.0))
    ensures g.Polygon? ==> r == Ok(Shadow(g.exterior, lib.area(g)))
    ensures r.Err? <==> g.NonPolygon?
  {
    match g
    case Empty => Ok(Shadow([], 0.0))
    case Polygon(ring) => Ok(Shadow(ring, lib.area(g)))
    case NonPolygon(_) => Err(NoExterior)
  }

  /** `calculate_shadow`: the blocking polygon clipped to the panel
      [0, D] x [0, H]. */
  function CalculateShadowUnclamped(c: Calculator, m: Math, lib: PolygonOps, phiDeg: real, thetaDeg: real)
    : (r: Result<Shadow>)
    ensures var g := lib.intersection(ShadowPolygonUnclamped(c, m, phiDeg, thetaDeg), Rectangle(c.D, c.H));
            && (g.Empty? ==> r == Ok(Shadow([], 0.0)))
            && (g.Polygon? ==> r == Ok(Shadow(g.exterior, lib.area(g))))
            && (r.Err? <==> g.NonPolygon?)
  {
    ShadowOf(lib, lib.intersection(ShadowPolygonUnclamped(c, m, phiDeg, thetaDeg), Rectangle(c.D, c.H)))
  }

  /** Lines 78-82: the area of the panel [0, D] x [0, H] minus the union of
      the two shadows, each given by its vertex list. */
  function NonShadowArea(c: Calculator, lib: PolygonOps, vi: seq<Point>, vo: seq<Point>): (r: real)
    ensures var union := lib.unaryUnion([vi, vo]);
            r == lib.area(lib.difference(Rectangle(c.D, c.H), union))
  {
    lib.area(lib.difference(Rectangle(c.D, c.H), lib.unaryUnion([vi, vo])))
  }

  /** When neither source's blocking polygon meets the panel, both shadows
      are empty vertex lists, and with a polygon library that behaves as
      plane geometry does on the empty shape (the union of two empty rings
      is empty, removing nothing leaves the panel, and the panel's area is
      D x H) the whole solar-array area `aSA` is left unshadowed. */
  lemma NoShadowLeavesWholePanel(c: Calculator, m: Math, lib: PolygonOps,
                                 phiI: real, thetaI: real, phiO: real, thetaO: real)
    requires lib.intersection(ShadowPolygonUnclamped(c, m, phiI, thetaI), Rectangle(c.D, c.H)) == Empty
    requires lib.intersection(ShadowPolygonUnclamped(c, m, phiO, thetaO), Rectangle(c.D, c.H)) == Empty
    requires lib.unaryUnion([[], []]) == Empty
    requires lib.difference(Rectangle(c.D, c.H), Empty) == Polygon(Rectangle(c.D, c.H))
    requires lib.area(Polygon(Rectangle(c.D, c.H))) == c.D * c.H
    ensures CombinedNonShadowUnclamped(c, m, lib, phiI, thetaI, phiO, thetaO) == Ok(c.aSA)
  {
    assert CalculateShadowUnclamped(c, m, lib, phiI, thetaI) == Ok(Shadow([], 0.0));
    assert CalculateShadowUnclamped(c, m, lib, phiO, thetaO) == Ok(Shadow([], 0.0));
    assert NonShadowArea(c, lib, [], []) == c.D * c.H == c.aSA;
    var r := CombinedNonShadowUnclamped(c, m, lib, phiI, thetaI, phiO, thetaO);
    assert r.Ok? && r.value == c.aSA;
  }

  /** `calculate_combined_non_shadow`: fails exactly when one of the two
      shadows does. */
  function CombinedNonShadowUnclamped(c: Calculator, m: Math, lib: PolygonOps,
                                      phiI: real, thetaI: real, phiO: real, thetaO: real): (r: Result<real>)
    ensures var si := CalculateShadowUnclamped(c, m, lib, phiI, thetaI);
            var so := CalculateShadowUnclamped(c, m, lib, phiO, thetaO);
            && (r.Ok? <==> si.Ok? && so.Ok?)
            && (r.Ok? ==> r.value == NonShadowArea(c, lib, si.value.vertices, so.value.vertices))
  {
    var si :- CalculateShadowUnclamped(c, m, lib, phiI, thetaI);
    var so :- CalculateShadowUnclamped(c, m, lib, phiO, thetaO);
    Ok(NonShadowArea(c, lib, si.vertices, so.vertices))
  }

  // ---------------------------------------------------------------------
  // The special cases
  // ---------------------------------------------------------------------

  datatype SpecialAngles = SpecialAngles(phiI: real, thetaI: real, phiO: real, thetaO: real)

  /** Lines 87-91: the angles handed to the polygon computation. A Sun in
      the first quadrant is laid flat (0); otherwise, and always for the
      observer, 270 is subtracted; the thetas pass through. */
  function SpecialCaseAngles(qi: Quad, phiI: real, thetaI: real, phiO: real, thetaO: real): (a: SpecialAngles)
    ensures a.thetaI == thetaI && a.thetaO == thetaO
    ensures a.phiO + 270.0 == phiO
    ensures qi == Q1 ==> a.phiI == 0.0
    ensures qi != Q1 ==> a.phiI + 270.0 == phiI
  {
    SpecialAngles(if qi == Q1 then 0.0 else phiI - 270.0, thetaI, phiO - 270.0, thetaO)
  }

  /** For angles given in [0, 360), the remap sends both special cases into
      the first quadrant: the adjusted elevations lie in [0, 90). */
  lemma SpecialAnglesInFirstQuadrant(phiI: real, thetaI: real, phiO: real, thetaO: real)
    requires 0.0 <= phiI < 360.0 && 0.0 <= phiO < 360.0
    requires CaseTable(QuadrantClosed(phiI), QuadrantClosed(phiO)).sa == SaSpecial
    ensures var a := SpecialCaseAngles(QuadrantClosed(phiI), phiI, thetaI, phiO, thetaO);
            0.0 <= a.phiI < 90.0 && 0.0 < a.phiO < 90.0
  {
    PyModOfRange(phiI, 360.0);
    PyModOfRange(phiO, 360.0);
  }

  /** `calculate_special_case`: the non-shadowed area for the remapped angles. */
  function SpecialCaseUnclamped(c: Calculator, m: Math, lib: PolygonOps,
                                phiI: real, thetaI: real, phiO: real, thetaO: real): (r: Result<real>)
    ensures QuadrantClosed(phiI) == Q1 ==>
              r == CombinedNonShadowUnclamped(c, m, lib, 0.0, thetaI, phiO - 270.0, thetaO)
    ensures QuadrantClosed(phiI) != Q1 ==>
              r == CombinedNonShadowUnclamped(c, m, lib, phiI - 270.0, thetaI, phiO - 270.0, thetaO)
  {
    var a := SpecialCaseAngles(QuadrantClosed(phiI), phiI, thetaI, phiO, thetaO);
    CombinedNonShadowUnclamped(c, m, lib, a.phiI, a.thetaI, a.phiO, a.thetaO)
  }

  /** With the Sun in the first quadrant and the observer in the fourth, the
      special case lays the Sun flat (phi 0). The unclamped construction then
      turns `tan(0) = 0` into an infinite cotangent, and the far edge of the
      shadow polygon has a non-finite coordinate, whatever theta is. */
  lemma Q1Q4ShadowIsNonFinite(c: Calculator, m: Math, phiI: real, thetaI: real, phiO: real, thetaO: real)
    requires m.tan(0.0) == 0.0
    requires QuadrantClosed(phiI) == Q1 && QuadrantClosed(phiO) == Q4
    ensures var a := SpecialCaseAngles(Q1, phiI, thetaI, phiO, thetaO);
            && a.phiI == 0.0
            && !ShadowPolygonUnclamped(c, m, a.phiI, a.thetaI)[2].IsFinite()
            && !ShadowPolygonUnclamped(c, m, a.phiI, a.thetaI)[3].IsFinite()
  {
    PyModOfRange(0.0, 180.0);
    assert Radians(0.0) == 0.0;
    var (dx, dy) := UnclampedOffsets(c, m, 0.0, thetaI);
    assert !dy.Finite?;
  }

  // ---------------------------------------------------------------------
  // The effective area
  // ---------------------------------------------------------------------

  /** `calculate_effective_area` (angle form). Only the two special entries
      can fail; the chassis term is the full chassis area exactly when both
      sources are in the third or fourth quadrant; the solar-array term is
      the full panel for (Q2, Q3) and (Q3, Q3), the special-case area for
      (Q1, Q4) and (Q4, Q4), and 0 otherwise. */
  function EffectiveAreaUnclamped(c: Calculator, m: Math, lib: PolygonOps,
                                  phiI: real, thetaI: real, phiO: real, thetaO: real): (r: Result<Areas>)
    ensures var qi, qo := QuadrantClosed(phiI), QuadrantClosed(phiO);
            var special := SpecialCaseUnclamped(c, m, lib, phiI, thetaI, phiO, thetaO);
            && (r.Err? <==> qo == Q4 && qi in {Q1, Q4} && special.Err?)
            && (r.Ok? ==> r.value.chassis == if qi in {Q3, Q4} && qo in {Q3, Q4} then c.aChassis else 0.0)
            && (r.Ok? ==> r.value.sa == if qo == Q3 && qi in {Q2, Q3} then c.aSA
                                        else if qo == Q4 && qi in {Q1, Q4} then special.value
                                        else 0.0)
  {
    var qi := QuadrantClosed(phiI);
    var qo := QuadrantClosed(phiO);
    Resolve(c, CaseTable(qi, qo), SpecialCaseUnclamped(c, m, lib, phiI, thetaI, phiO, thetaO))
  }

  /** The scenarios of the driver that do not reach the special case, with
      the default dimensions: (45, -30, 200, 30) is case Q1 x Q3,
      (135, 45, 200, -45) Q2 x Q3, (135, 45, 300, -45) Q2 x Q4,
      (225, 0, 200, 60) Q3 x Q3, (225, 0, 300, -60) Q3 x Q4 and
      (315, 60, 200, -30) Q4 x Q3. */
  lemma DefaultScenarios(m: Math, lib: PolygonOps)
    ensures var c := NewCalculator(None, None, None);
            && EffectiveAreaUnclamped(c, m, lib, 45.0, -30.0, 200.0, 30.0) == Ok(Areas(0.0, 0.0))
            && EffectiveAreaUnclamped(c, m, lib, 135.0, 45.0, 200.0, -45.0) == Ok(Areas(22.68, 0.0))
            && EffectiveAreaUnclamped(c, m, lib, 135.0, 45.0, 300.0, -45.0) == Ok(Areas(0.0, 0.0))
            && EffectiveAreaUnclamped(c, m, lib, 225.0, 0.0, 200.0, 60.0) == Ok(Areas(22.68, 3.64))
            && EffectiveAreaUnclamped(c, m, lib, 225.0, 0.0, 300.0, -60.0) == Ok(Areas(0.0, 3.64))
            && EffectiveAreaUnclamped(c, m, lib, 315.0, 60.0, 200.0, -30.0) == Ok(Areas(0.0, 3.64))
  {
    PyModOfRange(45.0, 360.0);
    PyModOfRange(135.0, 360.0);
    PyModOfRange(200.0, 360.0);
    PyModOfRange(225.0, 360.0);
    PyModOfRange(300.0, 360.0);
    PyModOfRange(315.0, 360.0);
  }
}
