/** The per-row coefficient rule of the altitude study
    (altitudechange/Calculate_Eff_Area.py): from the panel elevation `phi1`
    and the elevations of the observer and the Sun, the fraction of the solar
    array and of the chassis that counts towards the effective area. */
module AltitudeCoefficients {
  import opened Numerics

  /** Panel height and chassis length used by the rule (lines 6-7). */
  const H: real := 8.1
  const L: real := 1.3

  /** One input row: `phi_1`, `phi_ob` and `phi_sun`, in degrees. */
  datatype AngleRow = AngleRow(phi1: real, phiOb: real, phiSun: real)

  /** The two coefficients of a row. */
  datatype Coefficients = Coefficients(sa: real, chassis: real)

  /** The solar-array coefficient (lines 28-34). It is 0 when the panel is at
      or past the vertical, 0 when the lower of the two elevations is not
      positive, and otherwise `1 - (L/H) cot(min angle)` floored at 0. A
      tangent of exactly 0 divides by zero. */
  function SaCoefficient(m: Math, phi1: real, phiOb: real, phiSun: real): (r: Result<real>)
    ensures r.Err? ==> r.error == ZeroDivision
    ensures r.Ok? ==> r.value >= 0.0
    ensures phi1 >= 90.0 ==> r == Ok(0.0)
    ensures phi1 < 90.0 && Min(phiOb, phiSun) <= 0.0 ==> r == Ok(0.0)
    ensures phi1 < 90.0 && Min(phiOb, phiSun) > 0.0 ==>
              var t := m.tan(Radians(Min(phiOb, phiSun)));
              && (r.Err? <==> t == 0.0)
              && (t != 0.0 ==> r == Ok(Max(1.0 - (L / H) * (1.0 / t), 0.0)))
  {
    if phi1 < 90.0 then
      var minAngle := Min(phiOb, phiSun);
      if minAngle > 0.0 then
        var t := m.tan(Radians(minAngle));
        if t == 0.0 then Err(ZeroDivision)
        else Ok(Max(1.0 - (L / H) * (1.0 / t), 0.0))
      else
        Ok(0.0)
    else
      Ok(0.0)
  }

  /** The chassis coefficient (line 37): 0 when the Sun is below the
      horizon, 1 otherwise. */
  function ChassisCoefficient(phiSun: real): (r: real)
    ensures r == 0.0 || r == 1.0
    ensures r == 0.0 <==> phiSun < 0.0
  {
    if phiSun < 0.0 then 0.0 else 1.0
  }

  /** `calculate_effective_area(row)`: both coefficients, or the row's
      division error. */
  function RowCoefficients(m: Math, row: AngleRow): (r: Result<Coefficients>)
    ensures r.Ok? <==> SaCoefficient(m, row.phi1, row.phiOb, row.phiSun).Ok?
    ensures r.Ok? ==> r.value.sa == SaCoefficient(m, row.phi1, row.phiOb, row.phiSun).value
    ensures r.Ok? ==> r.value.chassis == ChassisCoefficient(row.phiSun)
  {
    var sa :- SaCoefficient(m, row.phi1, row.phiOb, row.phiSun);
    Ok(Coefficients(sa, ChassisCoefficient(row.phiSun)))
  }

  /** Only the lower of the two elevations matters, so swapping the observer
      and the Sun leaves the solar-array coefficient unchanged. */
  lemma SaCoefficientSymmetric(m: Math, phi1: real, a: real, b: real)
    ensures SaCoefficient(m, phi1, a, b) == SaCoefficient(m, phi1, b, a)
  {
    assert Min(a, b) == Min(b, a);
  }

  /** Where the tangent is positive the coefficient never exceeds 1. */
  lemma SaCoefficientAtMostOne(m: Math, phi1: real, phiOb: real, phiSun: real)
    requires phi1 < 90.0 && Min(phiOb, phiSun) > 0.0
    requires m.tan(Radians(Min(phiOb, phiSun))) > 0.0
    ensures SaCoefficient(m, phi1, phiOb, phiSun).Ok?
    ensures SaCoefficient(m, phi1, phiOb, phiSun).value <= 1.0
  {
    var t := m.tan(Radians(Min(phiOb, phiSun)));
    assert 1.0 / t > 0.0;
    assert (L / H) * (1.0 / t) > 0.0;
  }

  /** The chassis coefficient reads only the Sun's elevation: two rows with
      the same `phi_sun` get the same chassis coefficient, whatever their
      `phi_1` and `phi_ob`. */
  lemma ChassisIgnoresOtherAngles(m: Math, r1: AngleRow, r2: AngleRow)
    requires r1.phiSun == r2.phiSun
    requires RowCoefficients(m, r1).Ok? && RowCoefficients(m, r2).Ok?
    ensures RowCoefficients(m, r1).value.chassis == RowCoefficients(m, r2).value.chassis
  {
  }
}
