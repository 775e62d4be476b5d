# Satellite self-shadowing and viewing-geometry rules, in Dafny

This project models the decision logic of the Satellite-Optical-Brightness
code, which estimates how much of a satellite is lit and visible. The
satellite has a rectangular solar array (D x H) and a chassis (L x D). Two
sources, the Sun (`i`) and the observer (`o`), are each described by an
elevation `phi` and an azimuth-like `theta` in degrees.

What is modelled:

- **The angle-form effective-area calculator** (`ShadowCalculator`, file
  `shadow_calculator.dfy`).
  - It bins both elevations into quadrants with the closed classifier, where
    270 falls in Q3.
  - It looks the pair up in a 16-entry case table.
  - The two special entries (Q1 x Q4 and Q4 x Q4) remap the angles and ask
    the polygon library for the area left unshadowed by both sources.
  - Its shadow polygon sends `tan(phi) == 0` to an infinite cotangent. This
    is modelled with IEEE infinities and NaN.
- **The vector-form calculator** (`VectorShadowCalculator`).
  - It converts each Cartesian direction into the `(phi, theta)` convention:
    a zero-vector sentinel, the sign-of-x fold of `asin(z)`, the pole guard
    and the clamp of `sin(theta)`.
  - It then uses the half-open classifier, where 270 falls in Q4.
  - It clamps the cotangent to `1 / max(1e-10, tan)` and the offsets to
    [-1e6, 1e6].
  - It also computes the solar phase angle between the two vectors.
- **The quadrant classifiers** (`Quadrants`): both versions, and exactly
  where they disagree.
- **The per-row coefficient rule of the altitude study**
  (`AltitudeCoefficients`).
- **Viewing-sphere sampling** (`VectorPairs`).
  - Fibonacci sampling of the sphere.
  - The nested loop that pairs every Sun sample with every lower-hemisphere
    observer sample.
  - Both are methods with loop invariants, proved against specification
    functions.
- **The observer-frame conversion and altitude window** (`ObserverFrame`).
  - The satellite frame, with its chain of fallbacks for the y axis.
  - The mapping `T @ v`, as the code computes it.
  - Altitude and azimuth.
  - The row loop and the order-preserving window filter.

Conventions of the model:

- Python's float `%` is `PyMod` (a floor remainder).
- `math.isclose` is written out exactly.
- `max(lo, min(hi, v))` is `Clamp`.
- A Python exception is `Err(ZeroDivision)`, `Err(NoExterior)` or, for the
  pandas column lookup on an empty table, `Err(MissingColumn)`.
- numpy's NaN from a division by a zero norm is `None`.
- The library functions are values passed in as parameters:
  - `math.sqrt`, `sin`, `cos`, `tan`, `asin`, `acos` and `np.arctan2` come in
    a `Math` record;
  - shapely's `intersection`, `unary_union`, `difference` and `area` come in
    a `PolygonOps` record.
- Every operation, and most lemmas, hold whatever those functions return.
  A few lemmas assume particular library values, stated in their `requires`:
  - `tan(0) == 0`: `ShadowCalculator.Q1Q4ShadowIsNonFinite` and
    `VectorShadowCalculator.ClampedShadowAtZeroIsFinite`;
  - `sqrt(1) == 1` and `asin(1) == pi/2` or `asin(-1) == -pi/2`:
    `VectorShadowCalculator.NorthPoleIsGuarded`,
    `VectorShadowCalculator.SouthPoleReachesDivision` and
    `ObserverFrame.StraightDownAltitude`;
  - `sqrt(0) == 0`: `VectorShadowCalculator.ZeroVectorMapsToOrigin`;
  - a positive tangent: `AltitudeCoefficients.SaCoefficientAtMostOne`;
  - shapely returning the empty shape, the panel and its area on empty
    input: `ShadowCalculator.NoShadowLeavesWholePanel`.
- Numbers are exact reals; `Pi` is the real with the digits of `math.pi`.

Where the two copies of the calculator, or a description of the code, and
the code differ, the model follows the code:

- `get_quadrant` is closed at 270 in `Effective_Area_Calculation.py` and
  half-open in `analysis/ABmag_SolarPhaseAngle_new.py`. Both are kept.
- The cotangent clamp uses a signed `max`, so every negative tangent gives a
  cotangent of 1e10.
- The observer frame maps vectors by `T @ v` (a combination of the frame's
  axes), not by the change of basis `T.T @ v`.
  - `ApplyTransposed` (the change of basis) is not something the code
    computes. It is kept only as the reference that
    `ExampleFrameMapsSatellite` and `TransposeSendsSatelliteOverhead`
    compare against.

## Model

| member | source | states |
|---|---|---|
| ShadowCalculator.NewCalculator | Effective_Area_Calculation.py:10-18 | a missing dimension takes its default (1.3, 2.8, 8.1); the areas `aSA = D*H` and `aChassis = L*D` are derived from the dimensions |
| ShadowCalculator.DefaultAreas | Effective_Area_Calculation.py:10-18 | with the defaults the reference areas are 22.68 and 3.64 |
| Quadrants.Norm360 | Effective_Area_Calculation.py:22 | `phi % 360` always lies in [0, 360) |
| Quadrants.QuadrantClosed | Effective_Area_Calculation.py:20-30 | Q1 iff the reduced angle is < 90, Q2 iff in [90, 180), Q3 iff in [180, 270] (closed), Q4 iff > 270 |
| Quadrants.QuadrantHalfOpen | analysis/ABmag_SolarPhaseAngle_new.py:55-65 | the same bins with Q3 = [180, 270) and Q4 = [270, 360) |
| Quadrants.QuadrantsPeriodic | Effective_Area_Calculation.py:22 | both classifiers depend on the angle only modulo 360 |
| Quadrants.QuadrantsOfReduced | analysis/ABmag_SolarPhaseAngle_new.py:57 | classifying an already-reduced angle gives the same bin |
| Quadrants.QuadrantsDisagreeOnlyAt270 | Effective_Area_Calculation.py:27 | the two classifiers differ iff the reduced angle is 270, where the closed one says Q3 and the half-open one Q4 |
| Quadrants.QuadrantsAt270 | analysis/ABmag_SolarPhaseAngle_new.py:62 | every angle 270 + 360k is Q3 for the closed classifier and Q4 for the half-open one |
| ShadowCalculator.CaseTable | Effective_Area_Calculation.py:106-151 | the table is total: the chassis is full iff both quadrants are Q3/Q4; the panel is full iff (Q2 or Q3, Q3); it is special iff (Q1 or Q4, Q4); the observer in Q1/Q2 gives (0, 0) |
| ShadowCalculator.Resolve | Effective_Area_Calculation.py:106-151 | an entry becomes areas (0, `A_SA`, the special-case value; 0 or `A_chassis`) and fails only when a special entry's computation fails |
| ShadowCalculator.EffectiveAreaUnclamped | Effective_Area_Calculation.py:101-151 | `calculate_effective_area` (angle form): only (Q1/Q4, Q4) can fail; chassis and panel areas by quadrant pair as in the table; the special entries use the special-case area |
| ShadowCalculator.DefaultScenarios | Effective_Area_Calculation.py:269-278 | with the defaults the six non-special driver scenarios give (0,0), (22.68,0), (0,0), (22.68,3.64), (0,3.64), (0,3.64) |
| ShadowCalculator.IsVertical | Effective_Area_Calculation.py:39 | the `isclose(phi % 180, 90, abs_tol=1e-9)` test: true only within 2e-7 of 90 after reduction, and true whenever the reduced angle is within 1e-9 of 90 |
| ShadowCalculator.VerticalAtRightAngles | Effective_Area_Calculation.py:39 | every angle 90 + 180k counts as vertical light |
| ShadowCalculator.CotUnclamped | Effective_Area_Calculation.py:44 | the cotangent is +infinity iff the tangent is 0, and otherwise the finite reciprocal of the tangent |
| ShadowCalculator.UnclampedOffsets | Effective_Area_Calculation.py:44-46 | for a non-zero tangent the offsets are the finite `L * (1/tan) * sin(theta)` and `L * (1/tan) * cos(theta)`; for a zero tangent both are non-finite (infinite or NaN) |
| ShadowCalculator.ShadowPolygonUnclamped | Effective_Area_Calculation.py:38-54 | four vertices: the rectangle [0,D] x [0,L] for vertical light, otherwise (0,0), (D,0) and the base edge translated by (-x_offset, y_offset) in float arithmetic |
| ShadowCalculator.ShadowOf | Effective_Area_Calculation.py:62-71 | an empty intersection gives no vertices and area 0; a polygon gives its outer ring and area; any other geometry raises on `.exterior` |
| ShadowCalculator.CalculateShadowUnclamped | Effective_Area_Calculation.py:32-71 | the blocking polygon clipped to the panel; empty gives ([], 0); a single polygon gives its outer ring and its area; fails iff the clip is neither |
| ShadowCalculator.NonShadowArea | Effective_Area_Calculation.py:78-82 | the area of the panel rectangle minus the union of the two shadow polygons |
| ShadowCalculator.NoShadowLeavesWholePanel | Effective_Area_Calculation.py:62-82 | when neither blocking polygon meets the panel, `calculate_combined_non_shadow` succeeds, and with a library that treats the empty shape as geometry does, it returns the whole panel area D x H |
| ShadowCalculator.CombinedNonShadowUnclamped | Effective_Area_Calculation.py:73-83 | fails iff one of the two shadows fails; otherwise the panel area minus the union of the two shadows |
| ShadowCalculator.SpecialCaseAngles | Effective_Area_Calculation.py:85-91 | a Sun in Q1 is laid flat (phi 0), otherwise phi_i - 270; the observer's phi is always phi_o - 270; thetas pass through |
| ShadowCalculator.SpecialCaseUnclamped | Effective_Area_Calculation.py:85-99 | with the Sun in Q1 the non-shadowed area for (0, theta_i, phi_o - 270, theta_o); otherwise for (phi_i - 270, theta_i, phi_o - 270, theta_o) |
| ShadowCalculator.SpecialAnglesInFirstQuadrant | Effective_Area_Calculation.py:85-99 | for angles in [0, 360), both special entries remap the elevations into [0, 90) |
| ShadowCalculator.Q1Q4ShadowIsNonFinite | Effective_Area_Calculation.py:44-54 | for every calculator, in the Q1 x Q4 special case the Sun is laid flat and, with tan(0) = 0, two vertices of its shadow polygon are non-finite |
| VectorShadowCalculator.SinTheta | analysis/ABmag_SolarPhaseAngle_new.py:47-49 | `y / cos(phi)` clamped into [-1, 1]: unchanged when already inside, exactly 1 above, exactly -1 below |
| VectorShadowCalculator.CartesianToSpherical | analysis/ABmag_SolarPhaseAngle_new.py:20-53 | the zero vector gives (0, 0); phi always in [0, 360); the pole guard gives theta 0; otherwise it fails (division by zero) iff cos(phi) = 0, else theta = asin of the clamped ratio |
| VectorShadowCalculator.ZeroVectorMapsToOrigin | analysis/ABmag_SolarPhaseAngle_new.py:23-25 | the zero vector maps to (0, 0) |
| VectorShadowCalculator.FoldElevation | analysis/ABmag_SolarPhaseAngle_new.py:34-39 | with x > 0 the elevation is asin(z) in degrees mod 360, in [0, 90] or [270, 360); with x <= 0 it is the supplement 180 - asin(z), in [90, 270] |
| VectorShadowCalculator.AtPole | analysis/ABmag_SolarPhaseAngle_new.py:43 | the `isclose(abs(phi), 90, abs_tol=1e-9)` pole test: true only within 2e-7 of 90 in absolute value, and true whenever within 1e-9 |
| VectorShadowCalculator.ElevationConvention | analysis/ABmag_SolarPhaseAngle_new.py:29-39 | phi is asin(z) in degrees mod 360 when x > 0, and 180 - asin(z) in degrees when x <= 0 |
| VectorShadowCalculator.NorthPoleIsGuarded | analysis/ABmag_SolarPhaseAngle_new.py:43-45 | straight up folds to phi 90 and gets theta 0 without dividing |
| VectorShadowCalculator.SouthPoleReachesDivision | analysis/ABmag_SolarPhaseAngle_new.py:43-47 | straight down folds to phi 270, misses the guard and divides by cos(-pi/2), failing iff that cosine is 0 |
| VectorShadowCalculator.ClampedCot | analysis/ABmag_SolarPhaseAngle_new.py:80 | the clamped cotangent is in (0, 1e10], equals 1e10 iff tan <= 1e-10 (negative tangents included), and is the reciprocal for tan >= 1e-10 |
| VectorShadowCalculator.ClampedOffsets | analysis/ABmag_SolarPhaseAngle_new.py:81-86 | the offsets are `L * cot * sin(theta)` and `L * cot * cos(theta)` with the clamped cotangent, each kept when inside [-1e6, 1e6] and saturated to exactly 1e6 or -1e6 outside |
| VectorShadowCalculator.ShadowPolygonClamped | analysis/ABmag_SolarPhaseAngle_new.py:73-94 | four finite vertices: the rectangle for vertical light, otherwise the parallelogram with the clamped offsets |
| VectorShadowCalculator.ClampedShadowAtZeroIsFinite | analysis/ABmag_SolarPhaseAngle_new.py:80-94 | with the light laid flat the cotangent is 1e10 and every vertex stays finite |
| VectorShadowCalculator.CalculateShadowClamped | analysis/ABmag_SolarPhaseAngle_new.py:67-111 | the clamped polygon clipped to the panel; empty gives ([], 0); a single polygon gives its outer ring and its area; fails iff the clip is neither |
| VectorShadowCalculator.CombinedNonShadowClamped | analysis/ABmag_SolarPhaseAngle_new.py:113-123 | fails iff one shadow fails; otherwise the panel minus the union of the two clamped shadows |
| VectorShadowCalculator.SpecialCaseClamped | analysis/ABmag_SolarPhaseAngle_new.py:125-139 | with the Sun in Q1 (half-open bins) the clamped non-shadowed area for (0, theta_i, phi_o - 270, theta_o); otherwise for (phi_i - 270, theta_i, phi_o - 270, theta_o) |
| VectorShadowCalculator.EffectiveAreaFromAngles | analysis/ABmag_SolarPhaseAngle_new.py:147-195 | the case table on the half-open quadrants, with the clamped special case |
| VectorShadowCalculator.EffectiveAreaFromVectors | analysis/ABmag_SolarPhaseAngle_new.py:141-195 | a failed conversion fails the whole computation with the division-by-zero error; otherwise the result is the case table on the two converted directions |
| VectorShadowCalculator.VectorSpecialAnglesInFirstQuadrant | analysis/ABmag_SolarPhaseAngle_new.py:125-139 | after conversion, the special-case remap always yields elevations in [0, 90) |
| VectorShadowCalculator.VariantsAgreeAwayFrom270 | analysis/ABmag_SolarPhaseAngle_new.py:147-195 | away from 270 both calculators pick the same table entry and, outside the special entries, return the same areas |
| VectorShadowCalculator.VariantsDifferAt270 | analysis/ABmag_SolarPhaseAngle_new.py:62 | at (225, 0, 270, 0) the angle form gives (A_SA, A_chassis) and the vector form (0, A_chassis) |
| VectorShadowCalculator.PhaseCosine | analysis/ABmag_SolarPhaseAngle_new.py:208-211 | the normalised dot product clamped into [-1, 1]: unchanged when already inside, exactly 1 above, exactly -1 below |
| VectorShadowCalculator.SolarPhaseAngle | analysis/ABmag_SolarPhaseAngle_new.py:198-215 | 0 when either vector has norm 0, otherwise acos of the clamped normalised dot product, in degrees |
| VectorShadowCalculator.SolarPhaseAngleSymmetric | analysis/ABmag_SolarPhaseAngle_new.py:198-215 | the phase angle is symmetric in its two vectors |
| AltitudeCoefficients.SaCoefficient | altitudechange/Calculate_Eff_Area.py:28-34 | 0 when phi_1 >= 90; 0 when the lower elevation is <= 0; otherwise max(1 - (L/H) cot(min), 0), failing iff the tangent is 0; never negative |
| AltitudeCoefficients.ChassisCoefficient | altitudechange/Calculate_Eff_Area.py:37 | the coefficient is 0 or 1, and 0 iff phi_sun < 0 |
| AltitudeCoefficients.RowCoefficients | altitudechange/Calculate_Eff_Area.py:13-39 | a row's two coefficients; it fails exactly when the panel coefficient does |
| AltitudeCoefficients.SaCoefficientSymmetric | altitudechange/Calculate_Eff_Area.py:29 | swapping phi_ob and phi_sun does not change the panel coefficient |
| AltitudeCoefficients.SaCoefficientAtMostOne | altitudechange/Calculate_Eff_Area.py:29-32 | with a positive tangent the panel coefficient is defined and at most 1 |
| AltitudeCoefficients.ChassisIgnoresOtherAngles | altitudechange/Calculate_Eff_Area.py:37 | the chassis coefficient depends on phi_sun only |
| VectorPairs.FibPoint | Vector_Pairs.py:10-18 | sample i has height `1 - 2i/(samples-1)` |
| VectorPairs.FibonacciSphereSampling | Vector_Pairs.py:4-20 | fails (division by zero) iff samples is 1; otherwise max(samples, 0) points, point i being `FibPoint(i)` in index order |
| VectorPairs.FibYEnds | Vector_Pairs.py:10 | the first height is 1 and the last -1 |
| VectorPairs.FibYDecreasing | Vector_Pairs.py:10 | the heights strictly decrease with the index |
| VectorPairs.FibYInRange | Vector_Pairs.py:10-11 | every height lies in [-1, 1] |
| VectorPairs.LowerIndicesExact | Vector_Pairs.py:31-32 | the lower-hemisphere index list holds exactly the indices with z < 0, ascending |
| VectorPairs.RowPairsAt | Vector_Pairs.py:31-33 | the row for Sun index i pairs points[i] with each lower-hemisphere point in index order |
| VectorPairs.BuildPairs | Vector_Pairs.py:29-33 | the nested loop produces exactly `PairsUpTo(points, |points|)` |
| VectorPairs.PairsLength | Vector_Pairs.py:30-33 | after n rounds of the outer loop there are n x w pairs, w being the number of lower-hemisphere points |
| VectorPairs.PairsEntry | Vector_Pairs.py:30-33 | entry k of block r is (points[r], k-th lower-hemisphere point) |
| VectorPairs.PairsAt | Vector_Pairs.py:30-33 | after n rounds there are n blocks of w pairs, and entry k of block r is (points[r], k-th lower point) |
| VectorPairs.PairsObserverBelow | Vector_Pairs.py:32-33 | every emitted pair's second point has z < 0 |
| VectorPairs.BuiltPairs | Vector_Pairs.py:29-33 | samples x w pairs, every observer below the plane, ordered by Sun index then ascending observer index, every lower point used, every sample a first component when w > 0 |
| ObserverFrame.Normalize | altitude_azimuth_filter.py:6-7 | normalisation is NaN (None) iff the norm is 0 |
| ObserverFrame.NormalizeScalesBack | altitude_azimuth_filter.py:6-7 | a normalised vector scaled by the norm gives the vector back |
| ObserverFrame.YAxis | altitude_azimuth_filter.py:13-21 | the normalised `z_s x i` when its norm is >= 1e-10; otherwise the projected unit y when that is >= 1e-10; otherwise the unit x |
| ObserverFrame.CrossAxisOrthogonal | altitude_azimuth_filter.py:13-21 | in the main branch the y axis is orthogonal to z_s and to i |
| ObserverFrame.ProjectedAxisLength | altitude_azimuth_filter.py:16-17 | the projected fallback is not renormalised: squared length 1 - z_s.y^2, a unit vector iff z_s.y = 0, orthogonal to z_s |
| ObserverFrame.ApplyT | altitude_azimuth_filter.py:28-32 | `T @ v` is the combination of the axes x_s, y_s, z_s weighted by v's coordinates |
| ObserverFrame.BuildFrame | altitude_azimuth_filter.py:4-25 | z_s = -normalised o, y_s = `YAxis`, x_s = normalised `y_s x z_s`; NaN (None) iff a normalisation divides by 0 |
| ObserverFrame.ToAltAz | altitude_azimuth_filter.py:35-39 | the azimuth always lies in [0, 360) degrees; the altitude is asin(z/norm), NaN iff the norm is 0 |
| ObserverFrame.SatelliteToObserverFrame | altitude_azimuth_filter.py:4-44 | the Sun and the satellite (-o) mapped by `T @ v` and converted; a degenerate frame gives NaN everywhere |
| ObserverFrame.ExampleFrameMapsSatellite | altitude_azimuth_filter.py:31-32 | in a concrete frame `T @ v` sends the frame's own z axis to -z, while the change of basis sends it to +z |
| ObserverFrame.TransposeSendsSatelliteOverhead | altitude_azimuth_filter.py:24-28 | in the main branch with unit z_s the change of basis would send z_s to (0, 0, 1) |
| ObserverFrame.AltitudeOfUnit | altitude_azimuth_filter.py:38 | for a unit vector the altitude is asin of its z component |
| ObserverFrame.StraightDownAltitude | altitude_azimuth_filter.py:38-39 | a unit vector straight down has altitude -90 |
| ObserverFrame.ResultOf | altitude_azimuth_filter.py:55-65 | a record holds the four converted angles, with phase angle and both areas copied unchanged |
| ObserverFrame.BuildResults | altitude_azimuth_filter.py:51-65 | one record per input row, in order |
| ObserverFrame.InWindow | altitude_azimuth_filter.py:69-70 | a row is in the window only with both altitudes defined (NaN fails), -30 < sun_alt < -10 and 20 < sat_alt < 90: the Sun below the horizon, the satellite above it |
| ObserverFrame.FilterWindow | altitude_azimuth_filter.py:69-71 | every kept row has -30 < sun_alt < -10 and 20 < sat_alt < 90 (a NaN fails); every such row is kept; nothing else is added |
| ObserverFrame.FilterConcat | altitude_azimuth_filter.py:71 | filtering commutes with concatenation, so kept rows keep their order |
| ObserverFrame.FilterIdempotent | altitude_azimuth_filter.py:71 | filtering twice keeps the same rows as filtering once |
| ObserverFrame.WindowedTable | altitude_azimuth_filter.py:68-71 | an empty result list fails (the table has no `sun_alt` column, `KeyError`); otherwise the result is the window filter of the rows |

## Left out

- Floating-point rounding: arithmetic is exact over the reals. Only the infinities and NaN of the unclamped cotangent (`Float`) and numpy's NaN from a zero norm (`None`) are modelled.
- The library functions (`math.sqrt`, `sin`, `cos`, `tan`, `asin`, `acos`, `np.arctan2`) are parameters. Their domain errors are not modelled, such as the `ValueError` `math.asin` would raise outside [-1, 1] at analysis/ABmag_SolarPhaseAngle_new.py:29.
- The polygon library (shapely) is a parameter and is modelled as total: its exceptions (for example on non-finite coordinates) are not modelled, nor is its geometry. In particular there is no conservation law for the non-shadowed area, and no claim about which geometry an intersection of non-finite vertices returns.
- ShadowCalculator.CombinedNonShadowUnclamped and VectorShadowCalculator.CombinedNonShadowClamped: the `hasattr(non_shadow, 'area')` fallback to `D*H` (lines 82 and 122) is not modelled. Every shapely geometry has an area, so the fallback never fires. The second return value (`combined`) is dropped: its only user is the plotting in `plot_scene_with_shadows` (Effective_Area_Calculation.py:210-223), which is left out.
- Plotting (`plot_scene_with_shadows`, `create_solar_array`, `create_chassis`) and the printing `main()` driver of `Effective_Area_Calculation.py`. Six of its eight constant scenarios are stated in `DefaultScenarios`; the two special ones, (45, -30, 280, 30) and (280, 15, 280, -30), go through the parameterised polygon library and have no closed value.
- `process_vectors` (analysis/ABmag_SolarPhaseAngle_new.py:218-245): CSV input and output, with a loop whose `try/except` skips failing rows. The per-row computations it calls are modelled.
- The CSV reading and writing, column renaming and the `df.apply` driver around the coefficient rule in `altitudechange/Calculate_Eff_Area.py`. Also the CSV handling of `Vector_Pairs.py` and `altitude_azimuth_filter.py`.
- The BRDF and magnitude computations through the `lumos` library, `off-operation/normal.py`, `NewCode/altitude_azimuth2.py` (a random sample) and the other plotting scripts. These are not part of this model.
- ObserverFrame.SatelliteToObserverFrame: no concrete end-to-end frame is evaluated for a particular input pair. The orientation consequence of `T @ v` is shown on the frame level (`ExampleFrameMapsSatellite`, `TransposeSendsSatelliteOverhead`).
- VectorPairs.FibonacciSphereSampling: the default `samples = 1000` and the points' unit length are not stated, because the radius goes through the parameterised `sqrt`.

## Findings

| source | as written | input that shows it | evidently intended | confidence | as-written member | corrected member |
|---|---|---|---|---|---|---|
| Effective_Area_Calculation.py:44 | a zero tangent gives an infinite cotangent. The Q1 x Q4 special case passes the Sun laid flat (phi_i_adj = 0, line 90), so the shadow polygon's far vertices are non-finite | (phi_i, theta_i, phi_o, theta_o) = (45, -30, 280, 30) with tan(0) = 0 | a finite shadow polygon with bounded offsets, as in the clamped copy in analysis/ABmag_SolarPhaseAngle_new.py:80-86 | not executed | ShadowCalculator.Q1Q4ShadowIsNonFinite | VectorShadowCalculator.ShadowPolygonClamped |
