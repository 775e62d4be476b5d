/** The observer-frame conversion and altitude window
    (altitude_azimuth_filter.py). For each (Sun, observer) pair a local frame
    is built at the satellite, both directions are mapped into it, turned into
    altitude and azimuth, and only rows with the Sun a little below the
    horizon and the satellite well above it are kept.

    numpy does not raise on a division by a zero norm: the result is NaN,
    every comparison with NaN is false, and NaN spreads through later
    arithmetic. A NaN angle is `None` here. */
module ObserverFrame {
  import opened Numerics
  import opened Vectors

  /** The degeneracy threshold of lines 15 and 18. */
  const Eps: real := 0.0000000001

  const UnitX: Vec3 := Vec3(1.0, 0.0, 0.0)
  const UnitY: Vec3 := Vec3(0.0, 1.0, 0.0)

  /** `np.linalg.norm`. */
  function Norm(m: Math, v: Vec3): real {
    m.sqrt(Dot(v, v))
  }

  /** `v / np.linalg.norm(v)`; `None` (NaN) when the norm is 0. */
  function Normalize(m: Math, v: Vec3): (r: Option<Vec3>)
    ensures r.None? <==> Norm(m, v) == 0.0
  {
    var n := Norm(m, v);
    if n == 0.0 then None else Some(Scale(v, 1.0 / n))
  }

  /** A normalised vector scaled back by the norm gives the vector again. */
  lemma NormalizeScalesBack(m: Math, v: Vec3)
    requires Normalize(m, v).Some?
    ensures Scale(Normalize(m, v).value, Norm(m, v)) == v
  {
    var n := Norm(m, v);
    assert (1.0 / n) * n == 1.0;
    assert n * ((1.0 / n) * v.x) == ((1.0 / n) * n) * v.x;
    assert n * ((1.0 / n) * v.y) == ((1.0 / n) * n) * v.y;
    assert n * ((1.0 / n) * v.z) == ((1.0 / n) * n) * v.z;
  }

  /** Line 17: the unit y vector with its component along `zs` removed. */
  function ProjectedUnitY(zs: Vec3): Vec3 {
    Sub(UnitY, Scale(zs, Dot(UnitY, zs)))
  }

  /** Lines 13-21: the frame's y axis. The normalised cross product
      `zs x i` when that is not degenerate; otherwise the projection of the
      unit y vector, or the unit x vector when that projection is degenerate
      too. The two fallbacks are not renormalised. */
  function YAxis(m: Math, zs: Vec3, i: Vec3): (ys: Vec3)
    ensures Norm(m, Cross(zs, i)) >= Eps ==> Normalize(m, Cross(zs, i)) == Some(ys)
    ensures Norm(m, Cross(zs, i)) < Eps && Norm(m, ProjectedUnitY(zs)) >= Eps ==> ys == ProjectedUnitY(zs)
    ensures Norm(m, Cross(zs, i)) < Eps && Norm(m, ProjectedUnitY(zs)) < Eps ==> ys == UnitX
  {
    var c := Cross(zs, i);
    var cn := Norm(m, c);
    if cn < Eps then
      var ys := ProjectedUnitY(zs);
      if Norm(m, ys) < Eps then UnitX else ys
    else
      Normalize(m, c).value
  }

  /** In the main branch the y axis is orthogonal to both `zs` and `i`. */
  lemma CrossAxisOrthogonal(m: Math, zs: Vec3, i: Vec3)
    requires Norm(m, Cross(zs, i)) >= Eps
    ensures Dot(YAxis(m, zs, i), zs) == 0.0
    ensures Dot(YAxis(m, zs, i), i) == 0.0
  {
    var c := Cross(zs, i);
    var n := Norm(m, c);
    var ys := YAxis(m, zs, i);
    NormalizeScalesBack(m, c);
    CrossOrthogonal(zs, i);
    DotScale(ys, n, zs);
    DotScale(ys, n, i);
    assert n * Dot(ys, zs) == 0.0;
    assert n * Dot(ys, i) == 0.0;
  }

  /** The projected fallback is orthogonal to a unit `zs`. */
  lemma ProjectedAxisOrthogonal(zs: Vec3)
    requires Dot(zs, zs) == 1.0
    ensures Dot(ProjectedUnitY(zs), zs) == 0.0
  {
    var k := Dot(UnitY, zs);
    assert Dot(ProjectedUnitY(zs), zs) == k - k * Dot(zs, zs);
  }

  /** For a unit `zs` the projection of the unit y vector has squared
      length `1 - zs.y^2`. */
  lemma ProjectedLength(zs: Vec3)
    requires Dot(zs, zs) == 1.0
    ensures Dot(ProjectedUnitY(zs), ProjectedUnitY(zs)) == 1.0 - zs.y * zs.y
  {
    var k := zs.y;
    var p := ProjectedUnitY(zs);
    assert p == Vec3(-(k * zs.x), 1.0 - k * zs.y, -(k * zs.z));
    assert Dot(p, p) == k * k * (zs.x * zs.x) + (1.0 - k * zs.y) * (1.0 - k * zs.y) + k * k * (zs.z * zs.z);
    assert (1.0 - k * zs.y) * (1.0 - k * zs.y) == 1.0 - 2.0 * k * zs.y + k * k * (zs.y * zs.y);
    assert Dot(p, p) == 1.0 - 2.0 * k * zs.y + k * k * Dot(zs, zs);
  }

  /** The projected fallback is not renormalised: for a unit `zs` its
      squared length is `1 - zs.y^2`, so it is a unit vector exactly when
      `zs` has no y component. It is orthogonal to `zs`. */
  lemma ProjectedAxisLength(m: Math, zs: Vec3, i: Vec3)
    requires Dot(zs, zs) == 1.0
    requires Norm(m, Cross(zs, i)) < Eps && Norm(m, ProjectedUnitY(zs)) >= Eps
    ensures Dot(YAxis(m, zs, i), YAxis(m, zs, i)) == 1.0 - zs.y * zs.y
    ensures Dot(YAxis(m, zs, i), YAxis(m, zs, i)) == 1.0 <==> zs.y == 0.0
    ensures Dot(YAxis(m, zs, i), zs) == 0.0
  {
    var ys := YAxis(m, zs, i);
    assert ys == ProjectedUnitY(zs);
    ProjectedLength(zs);
    ProjectedAxisOrthogonal(zs);
    var sq := zs.y * zs.y;
    assert Dot(ys, ys) == 1.0 - sq;
    if zs.y != 0.0 {
      assert sq > 0.0;
      assert Dot(ys, ys) != 1.0;
    }
  }

  /** The three axes: `T` has them as its columns (line 28). */
  datatype Frame = Frame(xs: Vec3, ys: Vec3, zs: Vec3)

  /** `T @ v` (lines 31-32): the combination of the columns of `T` with the
      coordinates of `v` as weights. */
  function ApplyT(f: Frame, v: Vec3): (w: Vec3)
    ensures w == Add(Add(Scale(f.xs, v.x), Scale(f.ys, v.y)), Scale(f.zs, v.z))
  {
    Vec3(f.xs.x * v.x + f.ys.x * v.y + f.zs.x * v.z,
         f.xs.y * v.x + f.ys.y * v.y + f.zs.y * v.z,
         f.xs.z * v.x + f.ys.z * v.y + f.zs.z * v.z)
  }

  /** `T.T @ v`: the coordinates of `v` along each axis. The source does not
      compute this; it is the reference for what a change of basis into the
      frame would give. */
  function ApplyTransposed(f: Frame, v: Vec3): (w: Vec3)
    ensures w.x == Dot(f.xs, v) && w.y == Dot(f.ys, v) && w.z == Dot(f.zs, v)
  {
    Vec3(Dot(f.xs, v), Dot(f.ys, v), Dot(f.zs, v))
  }

  /** Lines 9-25: the satellite frame for Sun direction `i` and observer
      direction `o`, with `zs = -o` (towards the Earth's centre), or `None`
      when any normalisation divides by 0. Also returns the normalised `i`
      and `o`. */
  function BuildFrame(m: Math, i: Vec3, o: Vec3): (r: Option<(Frame, Vec3, Vec3)>)
    ensures r.Some? ==>
              var (f, iu, ou) := r.value;
              && Normalize(m, i) == Some(iu)
              && Normalize(m, o) == Some(ou)
              && f.zs == Neg(ou)
              && f.ys == YAxis(m, f.zs, iu)
              && Normalize(m, Cross(f.ys, f.zs)) == Some(f.xs)
    ensures r.None? <==>
              Norm(m, i) == 0.0 || Norm(m, o) == 0.0 ||
              Norm(m, Cross(YAxis(m, Neg(Normalize(m, o).value), Normalize(m, i).value),
                            Neg(Normalize(m, o).value))) == 0.0
  {
    var iu :- Normalize(m, i);
    var ou :- Normalize(m, o);
    var zs := Neg(ou);
    var ys := YAxis(m, zs, iu);
    var xs :- Normalize(m, Cross(ys, zs));
    Some((Frame(xs, ys, zs), iu, ou))
  }

  /** Altitude and azimuth in degrees; `None` stands for NaN. */
  datatype AltAz = AltAz(alt: Option<real>, az: Option<real>)

  /** `xyz_to_alt_az` (lines 35-39): the azimuth is `atan2(y, x)` reduced
      into [0, 2 pi) and so lies in [0, 360) degrees; the altitude is
      `asin(z / |v|)`, NaN for the zero vector. */
  function ToAltAz(m: Math, v: Vec3): (r: AltAz)
    ensures r.az.Some? && 0.0 <= r.az.value < 360.0
    ensures r.az.value == Degrees(PyMod(m.atan2(v.y, v.x), 2.0 * Pi))
    ensures r.alt.None? <==> Norm(m, v) == 0.0
    ensures r.alt.Some? ==> r.alt.value == Degrees(m.asin(v.z / Norm(m, v)))
  {
    var az := Degrees(PyMod(m.atan2(v.y, v.x), 2.0 * Pi));
    var n := Norm(m, v);
    if n == 0.0 then AltAz(None, Some(az))
    else AltAz(Some(Degrees(m.asin(v.z / n))), Some(az))
  }

  /** What `satellite_to_observer_frame` returns. */
  datatype ObserverAngles = ObserverAngles(sun: AltAz, sat: AltAz)

  /** `satellite_to_observer_frame`: the Sun direction and the direction to
      the satellite (`-o`), mapped by `T @ v` and converted. A degenerate
      frame makes every angle NaN. */
  function SatelliteToObserverFrame(m: Math, i: Vec3, o: Vec3): (r: ObserverAngles)
    ensures BuildFrame(m, i, o).None? ==> r == ObserverAngles(AltAz(None, None), AltAz(None, None))
    ensures BuildFrame(m, i, o).Some? ==>
              var (f, iu, ou) := BuildFrame(m, i, o).value;
              r == ObserverAngles(ToAltAz(m, ApplyT(f, iu)), ToAltAz(m, ApplyT(f, Neg(ou))))
  {
    match BuildFrame(m, i, o)
    case None => ObserverAngles(AltAz(None, None), AltAz(None, None))
    case Some((f, iu, ou)) => ObserverAngles(ToAltAz(m, ApplyT(f, iu)), ToAltAz(m, ApplyT(f, Neg(ou))))
  }

  /** For a vector of norm 1 the altitude is `asin` of its z component. */
  lemma AltitudeOfUnit(m: Math, v: Vec3)
    requires Norm(m, v) == 1.0
    ensures ToAltAz(m, v).alt == Some(Degrees(m.asin(v.z)))
  {
    assert v.z / Norm(m, v) == v.z;
  }

  /** In the frame with axes +x, -z, +y, the code's `T @ v` sends the
      direction +y (the frame's own z axis) to -z, while the change of basis
      `T.T @ v` sends it to +z. */
  lemma ExampleFrameMapsSatellite()
    ensures ApplyT(Frame(Vec3(1.0, 0.0, 0.0), Vec3(0.0, 0.0, -1.0), Vec3(0.0, 1.0, 0.0)), Vec3(0.0, 1.0, 0.0))
            == Vec3(0.0, 0.0, -1.0)
    ensures ApplyTransposed(Frame(Vec3(1.0, 0.0, 0.0), Vec3(0.0, 0.0, -1.0), Vec3(0.0, 1.0, 0.0)), Vec3(0.0, 1.0, 0.0))
            == Vec3(0.0, 0.0, 1.0)
  {
  }

  /** A unit vector pointing straight down has altitude -90. */
  lemma StraightDownAltitude(m: Math, v: Vec3)
    requires m.sqrt(1.0) == 1.0 && m.asin(-1.0) == -Pi / 2.0
    requires v.x == 0.0 && v.y == 0.0 && v.z == -1.0
    ensures ToAltAz(m, v).alt == Some(-90.0)
  {
    assert Dot(v, v) == 1.0;
    assert Norm(m, v) == 1.0;
    AltitudeOfUnit(m, v);
    assert Degrees(-Pi / 2.0) == -90.0;
  }

  /** In the main branch, for a unit `zs`, the change of basis would always
      send the satellite direction `zs` straight overhead, to (0, 0, 1). */
  lemma TransposeSendsSatelliteOverhead(m: Math, i: Vec3, o: Vec3)
    requires BuildFrame(m, i, o).Some?
    requires var (f, iu, ou) := BuildFrame(m, i, o).value;
             Dot(f.zs, f.zs) == 1.0 && Norm(m, Cross(f.zs, iu)) >= Eps
    ensures var (f, iu, ou) := BuildFrame(m, i, o).value;
            ApplyTransposed(f, f.zs) == Vec3(0.0, 0.0, 1.0)
  {
    var (f, iu, ou) := BuildFrame(m, i, o).value;
    CrossAxisOrthogonal(m, f.zs, iu);
    var c := Cross(f.ys, f.zs);
    var n := Norm(m, c);
    CrossOrthogonal(f.ys, f.zs);
    NormalizeScalesBack(m, c);
    DotScale(f.xs, n, f.zs);
    assert n * Dot(f.xs, f.zs) == 0.0;
    assert n != 0.0;
    assert Dot(f.ys, f.zs) == Dot(YAxis(m, f.zs, iu), f.zs);
  }

  // ---------------------------------------------------------------------
  // Rows and the altitude window
  // ---------------------------------------------------------------------

  /** The columns of an input row that the conversion reads or copies. */
  datatype InputRow = InputRow(i: Vec3, o: Vec3, phaseAngle: real, aSA: real, aChassis: real)

  /** One result record (lines 57-65). */
  datatype ResultRow = ResultRow(sunAlt: Option<real>, sunAz: Option<real>,
                                 satAlt: Option<real>, satAz: Option<real>,
                                 phaseAngle: real, aSA: real, aChassis: real)

  /** The record for one input row: the four converted angles, and the
      phase angle and the two areas copied unchanged. */
  function ResultOf(m: Math, row: InputRow): (r: ResultRow)
    ensures r.phaseAngle == row.phaseAngle && r.aSA == row.aSA && r.aChassis == row.aChassis
    ensures var a := SatelliteToObserverFrame(m, row.i, row.o);
            r.sunAlt == a.sun.alt && r.sunAz == a.sun.az && r.satAlt == a.sat.alt && r.satAz == a.sat.az
  {
    var a := SatelliteToObserverFrame(m, row.i, row.o);
    ResultRow(a.sun.alt, a.sun.az, a.sat.alt, a.sat.az, row.phaseAngle, row.aSA, row.aChassis)
  }

  /** The row loop of lines 51-65: one record per input row, in order. */
  method BuildResults(m: Math, rows: seq<InputRow>) returns (results: seq<ResultRow>)
    ensures |results| == |rows|
    ensures forall k :: 0 <= k < |rows| ==> results[k] == ResultOf(m, rows[k])
  {
    results := [];
    for k := 0 to |rows|
      invariant |results| == k
      invariant forall j :: 0 <= j < k ==> results[j] == ResultOf(m, rows[j])
    {
      results := results + [ResultOf(m, rows[k])];
    }
  }

  /** Lines 69-70: the Sun strictly between -30 and -10 degrees and the
      satellite strictly between 20 and 90 degrees. A NaN altitude fails. */
  predicate InWindow(r: ResultRow)
    ensures r.sunAlt.None? || r.satAlt.None? ==> !InWindow(r)
    ensures InWindow(r) ==> -30.0 < r.sunAlt.value < -10.0 && 20.0 < r.satAlt.value < 90.0
    ensures InWindow(r) ==> r.sunAlt.value < 0.0 < r.satAlt.value
  {
    && r.sunAlt.Some? && -30.0 < r.sunAlt.value < -10.0
    && r.satAlt.Some? && 20.0 < r.satAlt.value < 90.0
  }

  /** Line 71: the rows inside the window, in their original order. */
  function FilterWindow(rows: seq<ResultRow>): (kept: seq<ResultRow>)
    ensures |kept| <= |rows|
    ensures forall k :: 0 <= k < |kept| ==> InWindow(kept[k]) && kept[k] in rows
    ensures forall k :: 0 <= k < |rows| && InWindow(rows[k]) ==> rows[k] in kept
  {
    if |rows| == 0 then []
    else
      var rest := FilterWindow(rows[1..]);
      assert forall k :: 1 <= k < |rows| ==> rows[k] == rows[1..][k - 1];
      if InWindow(rows[0]) then [rows[0]] + rest else rest
  }

  /** Lines 68-71 as a whole. `pd.DataFrame([])` of an empty result list
      has no columns at all, so the lookup of `sun_alt` on line 69 raises
      `KeyError`; otherwise the table is the rows inside the window. */
  function WindowedTable(results: seq<ResultRow>): (r: Result<seq<ResultRow>>)
    ensures r.Err? <==> |results| == 0
    ensures r.Err? ==> r.error == MissingColumn
    ensures r.Ok? ==> r.value == FilterWindow(results)
  {
    if |results| == 0 then Err(MissingColumn) else Ok(FilterWindow(results))
  }

  /** Filtering commutes with concatenation, so the kept rows keep their
      relative order. */
  lemma {:induction false} FilterConcat(a: seq<ResultRow>, b: seq<ResultRow>)
    ensures FilterWindow(a + b) == FilterWindow(a) + FilterWindow(b)
  {
    if |a| > 0 {
      assert (a + b)[1..] == a[1..] + b;
      FilterConcat(a[1..], b);
    } else {
      assert a + b == b;
    }
  }

  /** Filtering twice keeps the same rows as filtering once. */
  lemma {:induction false} FilterIdempotent(rows: seq<ResultRow>)
    ensures FilterWindow(FilterWindow(rows)) == FilterWindow(rows)
  {
    if |rows| > 0 {
      FilterIdempotent(rows[1..]);
      if InWindow(rows[0]) {
        var rest := FilterWindow(rows[1..]);
        assert ([rows[0]] + rest)[1..] == rest;
      }
    }
  }
}
