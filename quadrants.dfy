/** The quadrant classifier: an angle in degrees, reduced modulo 360, falls in
    one of four 90-degree bins. The repository has two versions of it, which
    disagree about 270 degrees. */
module Quadrants {
  import opened Numerics

  datatype Quad = Q1 | Q2 | Q3 | Q4

  /** `phi % 360` in Python. */
  function Norm360(phiDeg: real): (p: real)
    ensures 0.0 <= p < 360.0
  {
    PyMod(phiDeg, 360.0)
  }

  /** `get_quadrant` of the angle-form calculator: the third quadrant is the
      closed interval [180, 270]. */
  function QuadrantClosed(phiDeg: real): (q: Quad)
    ensures var p := Norm360(phiDeg);
            && (q == Q1 <==> p < 90.0)
            && (q == Q2 <==> 90.0 <= p < 180.0)
            && (q == Q3 <==> 180.0 <= p <= 270.0)
            && (q == Q4 <==> 270.0 < p)
  {
    var phi := Norm360(phiDeg);
    if 0.0 <= phi < 90.0 then Q1
    else if 90.0 <= phi < 180.0 then Q2
    else if 180.0 <= phi <= 270.0 then Q3
    else Q4
  }

  /** `get_quadrant` of the vector-form calculator: the third quadrant is the
      half-open interval [180, 270), so 270 falls in the fourth. */
  function QuadrantHalfOpen(phiDeg: real): (q: Quad)
    ensures var p := Norm360(phiDeg);
            && (q == Q1 <==> p < 90.0)
            && (q == Q2 <==> 90.0 <= p < 180.0)
            && (q == Q3 <==> 180.0 <= p < 270.0)
            && (q == Q4 <==> 270.0 <= p)
  {
    var phi := Norm360(phiDeg);
    if 0.0 <= phi < 90.0 then Q1
    else if 90.0 <= phi < 180.0 then Q2
    else if 180.0 <= phi < 270.0 then Q3
    else Q4
  }

  /** Both classifiers depend on the angle only modulo 360. */
  lemma QuadrantsPeriodic(phiDeg: real, k: int)
    ensures QuadrantClosed(phiDeg + 360.0 * k as real) == QuadrantClosed(phiDeg)
    ensures QuadrantHalfOpen(phiDeg + 360.0 * k as real) == QuadrantHalfOpen(phiDeg)
  {
    PyModShift(phiDeg, 360.0, k);
  }

  /** Classifying an angle already reduced modulo 360 gives the same bin. */
  lemma QuadrantsOfReduced(phiDeg: real)
    ensures QuadrantClosed(Norm360(phiDeg)) == QuadrantClosed(phiDeg)
    ensures QuadrantHalfOpen(Norm360(phiDeg)) == QuadrantHalfOpen(phiDeg)
  {
    PyModOfRange(Norm360(phiDeg), 360.0);
  }

  /** The two versions disagree exactly on angles that reduce to 270:
      the closed classifier says Q3 there, the half-open one Q4. */
  lemma QuadrantsDisagreeOnlyAt270(phiDeg: real)
    ensures QuadrantClosed(phiDeg) != QuadrantHalfOpen(phiDeg) <==> Norm360(phiDeg) == 270.0
    ensures Norm360(phiDeg) == 270.0 ==> QuadrantClosed(phiDeg) == Q3 && QuadrantHalfOpen(phiDeg) == Q4
  {
  }

  /** 270 itself, and every angle 360 degrees away from it. */
  lemma QuadrantsAt270(k: int)
    ensures QuadrantClosed(270.0 + 360.0 * k as real) == Q3
    ensures QuadrantHalfOpen(270.0 + 360.0 * k as real) == Q4
  {
    QuadrantsPeriodic(270.0, k);
    PyModOfRange(270.0, 360.0);
  }
}
