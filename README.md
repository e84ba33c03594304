# NRLMSISE-00 engine and the GeoAtmos density facade, in Dafny

This project models the C++ port of the NRLMSISE-00 empirical atmosphere
model in GeoAtmosCpp, and proves properties of that model. The model has
two layers.

- **The engine** (`class Nrlmsise`, module `MsisEngine`) is an object.
  Between evaluations it keeps state in its fields:
  - surface gravity `gsurf` and the effective Earth radius `re`;
  - the mixed N2 density `dm28`;
  - the coefficient tables, which change as `glob7s` stores its
    parameter-set tag and `globe7` floors `p[24]`;
  - the harmonic cache: the Legendre table, the local-time harmonics,
    `dfa`, `apdf` and `apt`;
  - the six spline-node arrays `meso_tn1` … `meso_tgn3`.

  Every routine updates this state in place. `gtd7`, `gtd7d`, `gts7` and
  `ghp7` are methods on the class. Each one is proved against a function
  of the state it finds:
  - `Gtd7Spec`, `Gtd7dSpec`, `Gts7Spec` and `Ghp7Spec`, in modules
    `MsisDriver` and `MsisThermosphere`;
  - these are built from the profile functions `densu` and `densm`
    (module `MsisProfiles`);
  - the spline routines `spline`, `splint` and `splini` (module
    `SplineUtil`);
  - the harmonic expansions `globe7` and `glob7s` (modules `MsisHarmonics`
    and `MsisTables`);
  - the per-gas blocks of `gts7` (module `MsisSpecies`);
  - the scalar helpers `zeta`, `dnet`, `ccor`, `scalh`, `glatf`, `g0`,
    `sg0` and `tselec` (module `MsisFunctions`).

  The properties proved about those functions carry over to the methods.
  - **Mass identity.** Every output keeps it: `d[5]` is the
    1.66e-24-weighted sum of the species, in the units switch 0 selects.
  - **Full mixing.** Below `zmix` = 62.5 km, He, O2 and Ar are N2 times
    their ground mixing ratios.
  - **ghp7.** It answers only with a converged evaluation. When every
    evaluation along its own search path succeeds without matching the
    pressure, it fails with `MathmaticalError` after its twelfth pass.
    Conversely, if every evaluation succeeds and the search fails with
    `MathmaticalError`, then every pass missed.
  - **glob7s.** It refuses any parameter-set tag but 0 and 2, and leaves 2
    behind.
  - **densu.** It writes the joining slots of `meso_tn1`/`meso_tgn1` with
    values that do not depend on the altitude asked for.
  - **Splines.** The second derivatives solve the tridiagonal system of a
    cubic spline at every interior node and at clamped ends. A natural
    spline through collinear data has zero curvature, and interpolation
    reproduces the nodes.
- **The facade** (`class GeoAtmosDensity`, module `GeoAtmosFacade`) owns
  an engine and a `ModelConfig` switch record (module `GeoAtmosTypes`).
  Each evaluation:
  1. converts the record to the engine's 24 integer switches
     (`convertNativeStatus`), after forcing the daily-Ap switch to suit
     the kind of magnetic index given;
  2. assembles the input record from a geodetic position, converting
     metres to km and using the approximate local solar time
     `sec/3600 + long/15`;
  3. runs `gtd7`;
  4. names the nine densities and two temperatures.

  The record conversion is proved invertible. Every reported atmosphere
  density is proved to be the mass of its reported species.

**How the model represents the C++.**
- **Numbers.** Doubles are reals.
- **Library functions.** `exp`, `log`, `log10`, `pow`, `sqrt`, `sin`,
  `cos` and the angle helpers are fields of a `Math` value passed to every
  routine. `Lawful(m)` states the few laws that the proofs use.
- **Division.** Division by a quantity that may be zero goes through
  `Div`, which is exact whenever the divisor is not zero.
- **Exceptions.** Every `AtmosModelException` becomes a `Failure` of
  `Result` with the same code: `InvalidValue` from `glob7s`'s tag check,
  `MathmaticalError` from `dnet`, `splint` and `ghp7`.
- **Coefficient tables.** The `ModelSet` base class holds the coefficient
  tables (`pt`, `pd`, `ps`, `pdl`, `ptl`, `pma`, `ptm`, `pdm`, `pavgm`) and
  the static node heights. Its header (`Model.hpp`) is not part of this
  model. The tables are therefore a `Tables` value given to the engine's
  constructor.

## Model

| member | source | states |
|---|---|---|
| Numerics.Div | GeoAtmos/src/Nrlmsise00.hpp:168 | a quotient times a non-zero divisor gives back the dividend |
| Numerics.Abs | GeoAtmos/src/Nrlmsise00.hpp:660 | `fabs`: non-negative and equal to the argument or its negation |
| Numerics.Max | GeoAtmos/src/Nrlmsise00.hpp:771 | `(a > b) ? a : b` is at least both and is one of them |
| SplineUtil.SweepStart | GeoAtmos/src/Nrlmsise00.hpp:234-240 | an end slope above 0.99e30 gives the natural start row (0, 0) |
| SplineUtil.Sweep | GeoAtmos/src/Nrlmsise00.hpp:242-249 | the forward sweep has one decomposition pair per row swept |
| SplineUtil.BackSubstitute | GeoAtmos/src/Nrlmsise00.hpp:261 | back-substitution yields one entry more than the sweep, ending in the last second derivative |
| SplineUtil.EndCondition | GeoAtmos/src/Nrlmsise00.hpp:251-257 | an end slope above 0.99e30 gives the natural end condition (0, 0) |
| SplineUtil.SecondDerivatives | GeoAtmos/src/Nrlmsise00.hpp:229-262 | one second derivative per node |
| SplineUtil.Spline | GeoAtmos/src/Nrlmsise00.hpp:229-262 | `spline` writes exactly `SecondDerivatives` of the first `n` nodes into `y2[0..n-1]` and leaves the rest of `y2` alone |
| SplineUtil.ForwardSweep | GeoAtmos/src/Nrlmsise00.hpp:234-249 | the forward loop leaves `Sweep` of the nodes in `y2[0..n-2]` and the returned `u` |
| SplineUtil.BackSubstitution | GeoAtmos/src/Nrlmsise00.hpp:259-261 | the backward loop leaves `BackSubstitute` of the sweep in `y2[0..n-1]` |
| SplineUtil.SweepPrefix | GeoAtmos/src/Nrlmsise00.hpp:242-249 | each row of the sweep depends only on the rows before it (shorter sweeps are prefixes) |
| SplineUtil.NaturalSplineEnds | GeoAtmos/src/Nrlmsise00.hpp:234-261 | with both end slopes above the sentinel the first and last second derivatives are 0 |
| SplineUtil.SweepBounded | GeoAtmos/src/Nrlmsise00.hpp:242-249 | on strictly increasing nodes every sweep coefficient lies in (-1, 0], so no pivot is zero |
| SplineUtil.SweepRowBounded | GeoAtmos/src/Nrlmsise00.hpp:243-245 | one sweep row keeps its coefficient in (-1, 0] |
| SplineUtil.SigmaInUnitInterval | GeoAtmos/src/Nrlmsise00.hpp:243 | `sig` of three increasing nodes lies strictly between 0 and 1 |
| SplineUtil.CollinearSweepIsZero | GeoAtmos/src/Nrlmsise00.hpp:242-249 | through collinear data with a natural start every right-hand side `u` is 0 |
| SplineUtil.SweepRowOfLine | GeoAtmos/src/Nrlmsise00.hpp:246-248 | one sweep row over three collinear points has a zero right-hand side |
| SplineUtil.BackSubstituteZero | GeoAtmos/src/Nrlmsise00.hpp:261 | back-substitution of zero right-hand sides from a zero end is zero everywhere |
| SplineUtil.NaturalSplineOfLineIsFlat | GeoAtmos/src/Nrlmsise00.hpp:229-262 | the natural spline through collinear data on increasing nodes has every second derivative 0 |
| SplineUtil.BackSubstituteStep | GeoAtmos/src/Nrlmsise00.hpp:261 | every back-substituted entry below the last is `y2[k] * y2[k + 1] + u[k]` of the entry after it |
| SplineUtil.SweepRowSolves | GeoAtmos/src/Nrlmsise00.hpp:242-261 | one sweep row and the two back-substitution steps through it satisfy `sig * y2[i-1] + 2 y2[i] + (1 - sig) y2[i+1]` = six times the change of slope over `x[i+1] - x[i-1]` |
| SplineUtil.SplineInteriorEquations | GeoAtmos/src/Nrlmsise00.hpp:229-262 | on strictly increasing nodes the second derivatives satisfy the cubic-spline equation at every interior node |
| SplineUtil.SplineClampedStart | GeoAtmos/src/Nrlmsise00.hpp:234-240 | with `yp1` at or below 0.99e30, `2 y2[0] + y2[1]` is six times (first slope - `yp1`) over the first interval |
| SplineUtil.SplineClampedEnd | GeoAtmos/src/Nrlmsise00.hpp:251-261 | with `ypn` at or below 0.99e30 on strictly increasing nodes, `y2[n-2] + 2 y2[n-1]` is six times (`ypn` - last slope) over the last interval |
| SplineUtil.Bisect | GeoAtmos/src/Nrlmsise00.hpp:210-217 | bisection ends on adjacent nodes inside the start bracket, with `xa[klo] <= x < xa[khi]` except at the bracket ends |
| SplineUtil.CubicAtEnds | GeoAtmos/src/Nrlmsise00.hpp:222-224 | the cubic takes its end values at the ends of its interval |
| SplineUtil.Splint | GeoAtmos/src/Nrlmsise00.hpp:205-227 | `splint` returns `Interpolate` of the first `n` nodes, including the `MathmaticalError` when the bracket has zero width |
| SplineUtil.InterpolateFailsOnlyOnDegenerateNodes | GeoAtmos/src/Nrlmsise00.hpp:219-220 | on two or more strictly increasing nodes interpolation never fails; with one node it always fails |
| SplineUtil.InterpolateAtNode | GeoAtmos/src/Nrlmsise00.hpp:205-227 | on strictly increasing nodes interpolation at a node returns that node's value |
| SplineUtil.UpperLimit | GeoAtmos/src/Nrlmsise00.hpp:186-188 | the integration limit on an interval is `x` clamped to the interval's right node (except on the last interval) |
| SplineUtil.Splini | GeoAtmos/src/Nrlmsise00.hpp:175-203 | `splini` returns `Integrate` of the first `n` nodes |
| SplineUtil.IntegrateBelowFirstNode | GeoAtmos/src/Nrlmsise00.hpp:183 | nothing is integrated at or below the first node |
| SplineUtil.CubicIntegralOfConstant | GeoAtmos/src/Nrlmsise00.hpp:190-197 | on one interval of a flat profile the integral is value times width |
| SplineUtil.IntegralFromOfConstant | GeoAtmos/src/Nrlmsise00.hpp:183-200 | the accumulation from interval `klo` on is exact on a flat profile |
| SplineUtil.IntegrateConstantProfile | GeoAtmos/src/Nrlmsise00.hpp:175-203 | `splini` of a constant profile with zero curvature is `c * (x - xa[0])` |
| GeoAtmosTypes.Ordinal | GeoAtmos/src/GeoAtmosType.hpp:70 | `static_cast<int>` of `Off`, `On`, `Specific` is 0, 1, 2, and only those |
| GeoAtmosTypes.DefaultModelConfig | GeoAtmos/src/GeoAtmosType.hpp:102-126 | the default record has unit conversion `Off` and the other 23 switches `On` |
| GeoAtmosTypes.NativeCode | GeoAtmos/src/GeoAtmosType.hpp:130-157 | each switch is coded by its ordinal, except that the daily-Ap switch is -1 exactly when `Specific` |
| GeoAtmosTypes.ConvertNativeStatus | GeoAtmos/src/GeoAtmosType.hpp:128-159 | the native array has 24 entries |
| GeoAtmosTypes.StatusOf | GeoAtmos/src/GeoAtmosType.hpp:70 | inverse of `Ordinal` on 0..2 |
| GeoAtmosTypes.DailyApStatusOf | GeoAtmos/src/GeoAtmosType.hpp:139-143 | inverse of the daily-Ap coding on -1..1 |
| GeoAtmosTypes.NativeStatusCodes | GeoAtmos/src/GeoAtmosType.hpp:128-159 | entry `i` of the converted array is the ordinal of field `i`, -1 for a `Specific` daily Ap |
| GeoAtmosTypes.NativeStatusRoundTrip | GeoAtmos/src/GeoAtmosType.hpp:128-159 | the record is recovered from its native array |
| GeoAtmosTypes.NativeArrayRoundTrip | GeoAtmos/src/GeoAtmosType.hpp:128-159 | every array of the native form is the conversion of the record read back from it |
| GeoAtmosTypes.DefaultMagneticIndex | GeoAtmos/src/GeoAtmosType.hpp:169 | the default index holds seven entries, each 4 |
| GeoAtmosTypes.MagneticIndexOf | GeoAtmos/src/GeoAtmosType.hpp:171-172 | the seven-argument constructor stores its arguments in order |
| GeoAtmosTypes.DefaultDensity | GeoAtmos/src/GeoAtmosType.hpp:192-201 | every field of the default density is 0 |
| NativeTypes.NrlmsiseConfig.constructor | GeoAtmos/src/GeoAtmosType.hpp:24-28 | a record of 24 switches with fresh weight arrays |
| NativeTypes.NrlmsiseInput.constructor | GeoAtmos/src/GeoAtmosType.hpp:42-54 | every field holds its argument; the Ap history has seven entries |
| NativeTypes.NrlmsiseOutput.constructor | GeoAtmos/src/GeoAtmosType.hpp:60-63 | fresh arrays of nine densities and two temperatures |
| MsisFunctions.Zeta | GeoAtmos/src/Nrlmsise00.hpp:86 | `zeta(zz, zl) * (re + zz) == (zz - zl) * (re + zl)` whenever `re + zz` is not 0 |
| MsisFunctions.ZetaSign | GeoAtmos/src/Nrlmsise00.hpp:86 | above the Earth's centre the geopotential height is positive iff `zz > zl` and zero iff `zz == zl` |
| MsisFunctions.G0AtQuietAp | GeoAtmos/src/Nrlmsise00.hpp:88-91 | the Ap function vanishes at the quiet index Ap = 4 |
| MsisFunctions.Sg0AtQuietHistory | GeoAtmos/src/Nrlmsise00.hpp:93-100 | a quiet three-hour Ap history gives `sg0` = 0 |
| MsisFunctions.GlatfBounds | GeoAtmos/src/Nrlmsise00.hpp:127-131 | surface gravity lies in (978, 983.3) cm/s^2 and the effective radius is positive |
| MsisFunctions.CcorSaturates | GeoAtmos/src/Nrlmsise00.hpp:133-138 | `ccor` is positive, 1 more than 70 scale heights above `zh` and `exp(r)` more than 70 below |
| MsisFunctions.Ccor2WithEqualScales | GeoAtmos/src/Nrlmsise00.hpp:140-150 | `ccor2` with equal scale heights is `ccor` |
| MsisFunctions.ScalhPositive | GeoAtmos/src/Nrlmsise00.hpp:152-156 | the scale height is positive for positive gravity, radius, mass and temperature |
| MsisFunctions.Dnet | GeoAtmos/src/Nrlmsise00.hpp:158-173 | fails with `MathmaticalError` iff a density is not positive; below exponent -10 it is `dd`, above 10 it is `dm` |
| MsisFunctions.DnetPositive | GeoAtmos/src/Nrlmsise00.hpp:158-173 | the blend of two positive densities succeeds and is positive |
| MsisFunctions.WeightsOfStatus | GeoAtmos/src/Nrlmsise00.hpp:108-125 | after `convertNativeStatus` and `tselec`: `Off` weighs (0, 0) and `On` (1, 1) in (`sw`, `swc`); `Specific` weighs (0, 1) on an ordinary switch and (-1, -1) on the daily-Ap switch |
| MsisFunctions.SwitchedSumAllOff | GeoAtmos/src/Nrlmsise00.hpp:660 | with every term switch off the switched sum is 0 |
| MsisFunctions.SwitchedSumIgnoresOffTerms | GeoAtmos/src/Nrlmsise00.hpp:744 | terms whose switch is off do not affect the switched sum |
| MsisFunctions.LegendreValues | GeoAtmos/src/Nrlmsise00.hpp:493-517 | the associated Legendre table is 4 x 9 |
| MsisFunctions.LegendreUpdate | GeoAtmos/src/Nrlmsise00.hpp:493-517 | `globe7` overwrites exactly the entries it computes and keeps the others |
| MsisFunctions.LegendreAtPole | GeoAtmos/src/Nrlmsise00.hpp:493-517 | at the pole every zonal function is 1 and every tesseral one is 0 |
| MsisFunctions.LegendreAtEquator | GeoAtmos/src/Nrlmsise00.hpp:493-517 | on the equator the odd zonal functions vanish |
| MsisFunctions.ToMetric | GeoAtmos/src/Nrlmsise00.hpp:1310-1314 | the unit conversion yields nine entries |
| MsisFunctions.ToMetricKeepsMassIdentity | GeoAtmos/src/Nrlmsise00.hpp:1300-1314 | the conversion (x1e6, mass /1000) turns a consistent CGS output into a consistent metric one |
| MsisFunctions.MassDensityWithAnomalousOxygen | GeoAtmos/src/Nrlmsise00.hpp:751-752 | `gtd7d`'s mass density is `gtd7`'s plus 16 amu per anomalous-oxygen atom |
| MsisFunctions.MixingFactor | GeoAtmos/src/Nrlmsise00.hpp:815 | `dmc` is 0 at or below 62.5 km, in (0, 1] up to 72.5 km, and 1 at 72.5 km |
| MsisFunctions.MixingFactorIsLinear | GeoAtmos/src/Nrlmsise00.hpp:815 | above 62.5 km `dmc` grows by a tenth per km |
| MsisFunctions.MeanMassOfConsistentOutput | GeoAtmos/src/Nrlmsise00.hpp:931-932 | of a mass-consistent output, `xm` is the number-weighted mean molecular mass |
| MsisFunctions.NextAltitude | GeoAtmos/src/Nrlmsise00.hpp:934-942 | a zero pressure error leaves the altitude unchanged |
| MsisFunctions.NextAltitudeIsScaleHeightStep | GeoAtmos/src/Nrlmsise00.hpp:930-942 | the altitude moves down by the pressure error times the scale height `scalh`, times 2.302 in the first five passes |
| MsisHarmonics.HistoryDecay | GeoAtmos/src/Nrlmsise00.hpp:582-583 | `exp1` is capped at 0.99999 |
| MsisHarmonics.FlooredRow | GeoAtmos/src/Nrlmsise00.hpp:584 | the floor makes `p[24] >= 1e-4` and changes no other entry |
| MsisHarmonics.Globe7Terms | GeoAtmos/src/Nrlmsise00.hpp:533-656 | 14 terms; `t[9]` is 0; switches 7, 8, 9 and 14 zero their terms; no longitude terms when switch 10 is off or `g_long <= -1000`; none from the Ap history when `p[51] == 0` |
| MsisHarmonics.Globe7Row | GeoAtmos/src/Nrlmsise00.hpp:578-585 | `globe7` changes only `p[24]`, flooring it to 1e-4 in Ap-history mode when `p[51] != 0` |
| MsisHarmonics.Globe7Cache | GeoAtmos/src/Nrlmsise00.hpp:486-611 | the cache after `globe7`: Legendre table at the latitude; local-time harmonics refreshed unless switches 7, 8, 14 are off; `dfa`; `apdf` in daily mode; `apt[0] = sg0` in history mode |
| MsisHarmonics.Glob7sTerms | GeoAtmos/src/Nrlmsise00.hpp:678-742 | 14 terms; `t[9]`, `t[11]`, `t[12]` are 0; switches 7, 8, 9, 14 zero their terms; no longitude term when switch 10 or 11 is off or `g_long <= -1000` |
| MsisHarmonics.CheckedTag | GeoAtmos/src/Nrlmsise00.hpp:671-676 | the tag check succeeds iff the tag is 0 or 2 (giving 2), otherwise `InvalidValue` |
| MsisTables.RowOf | GeoAtmos/src/Nrlmsise00.hpp:473 | a row passed to `globe7` reaches `p[138]`, one passed to `glob7s` reaches `p[99]` |
| MsisTables.WithRow | GeoAtmos/src/Nrlmsise00.hpp:473 | writing through `p` changes that row only; the read-only tables stay |
| MsisTables.OtherRowsKept | GeoAtmos/src/Nrlmsise00.hpp:473 | replacing one row leaves every other row as it was |
| MsisTables.Globe7Call | GeoAtmos/src/Nrlmsise00.hpp:473-662 | a `globe7` call floors its row, refreshes the cache, and touches no `glob7s` row |
| MsisTables.Globe7AllOff | GeoAtmos/src/Nrlmsise00.hpp:658-661 | with all fourteen term switches off `globe7` returns `p[30]` |
| MsisTables.Globe7RowSettles | GeoAtmos/src/Nrlmsise00.hpp:584 | the floor is idempotent: a second call leaves the row as the first left it |
| MsisTables.TaggedRow | GeoAtmos/src/Nrlmsise00.hpp:671 | a zero tag is replaced by 2, every other entry kept |
| MsisTables.Glob7sCall | GeoAtmos/src/Nrlmsise00.hpp:664-746 | `glob7s` fails with `InvalidValue` iff the tag is neither 0 nor 2; the tables afterwards differ only in its own row's tag, set to 2 where it was 0 |
| MsisTables.Glob7sAllOff | GeoAtmos/src/Nrlmsise00.hpp:743-745 | with all fourteen term switches off an accepted call contributes 0 |
| MsisTables.Glob7sTagSettles | GeoAtmos/src/Nrlmsise00.hpp:671-676 | after an accepted call the tag is 2 and the next call on the row is accepted |
| MsisProfiles.Capped | GeoAtmos/src/Nrlmsise00.hpp:321 | `expl` is capped at 50 and otherwise unchanged |
| MsisProfiles.Abscissae | GeoAtmos/src/Nrlmsise00.hpp:298-300 | one normalised abscissa per node |
| MsisProfiles.Reciprocals | GeoAtmos/src/Nrlmsise00.hpp:298-301 | one inverse temperature per node |
| MsisProfiles.SegmentOf | GeoAtmos/src/Nrlmsise00.hpp:293-308 | the spline profile has one abscissa, value and second derivative per node |
| MsisProfiles.AbscissaeSpanUnitInterval | GeoAtmos/src/Nrlmsise00.hpp:298-300 | the normalised abscissae run from 0 at the first node to 1 at the last |
| MsisProfiles.FillNodes | GeoAtmos/src/Nrlmsise00.hpp:298-301 | the node loop fills fresh buffers with the abscissae and inverse temperatures |
| MsisProfiles.BuildSegment | GeoAtmos/src/Nrlmsise00.hpp:293-308 | the buffers and `spline`'s output are exactly `SegmentOf` |
| MsisProfiles.LayerExponent | GeoAtmos/src/Nrlmsise00.hpp:320-321 | the layer exponent never exceeds the cap 50 |
| MsisProfiles.LayerOf | GeoAtmos/src/Nrlmsise00.hpp:309-325 | a layer fails only with `splint`'s `MathmaticalError`; with `xm == 0` the density is untouched |
| MsisProfiles.LayerOnBuffers | GeoAtmos/src/Nrlmsise00.hpp:309-325 | the layer computed on the buffers is `LayerOf` of their contents |
| MsisProfiles.Layer | GeoAtmos/src/Nrlmsise00.hpp:287-325 | a layer on fresh buffers is `MesoLayer` of its nodes |
| MsisProfiles.DensmSpec | GeoAtmos/src/Nrlmsise00.hpp:264-379 | above `zn2[0]` `densm` returns `d0` (or `tz` when `xm == 0`) and keeps `tz`; with `xm == 0` it returns the temperature; it fails only with `MathmaticalError` |
| MsisProfiles.Densm | GeoAtmos/src/Nrlmsise00.hpp:264-379 | `densm` on the node arrays returns exactly `DensmSpec` |
| MsisProfiles.BatesAtLowerBoundary | GeoAtmos/src/Nrlmsise00.hpp:397-407 | the Bates profile starts at `tlb` |
| MsisProfiles.BatesDensityAtLowerBoundary | GeoAtmos/src/Nrlmsise00.hpp:446-456 | the diffusive density at the lower boundary is `dlb` |
| MsisProfiles.BelowJoin | GeoAtmos/src/Nrlmsise00.hpp:409-470 | the spline part fails only with `MathmaticalError`, keeping the temperature; with `xm == 0` it returns the temperature |
| MsisProfiles.BelowJoinOnBuffers | GeoAtmos/src/Nrlmsise00.hpp:409-470 | the spline part on the buffers is `BelowJoin` of their contents |
| MsisProfiles.DensuSpec | GeoAtmos/src/Nrlmsise00.hpp:381-471 | at or above `za` the temperature is the Bates temperature; a failure is possible only below `za`; with `xm == 0` it returns the temperature |
| MsisProfiles.DensuAtLowerBoundary | GeoAtmos/src/Nrlmsise00.hpp:381-471 | at `zlb` (at or above `za`) `densu` returns `dlb` and `tlb` |
| MsisProfiles.Densu | GeoAtmos/src/Nrlmsise00.hpp:381-471 | `densu` returns `DensuSpec`; below `za` it writes the Bates temperature at `za` into `tn1[0]` and the joining gradient into `tgn1[0]`; otherwise it writes nothing |
| MsisSpecies.DensuAt | GeoAtmos/src/Nrlmsise00.hpp:381-471 | `densu` on a thermosphere profile: Bates temperature at or above the joining altitude, failure only below it |
| MsisSpecies.DensuIgnoresJoiningSlots | GeoAtmos/src/Nrlmsise00.hpp:409-413 | `densu` overwrites the joining slots before it reads them, so their old contents do not matter |
| MsisSpecies.SlotsAfter | GeoAtmos/src/Nrlmsise00.hpp:409-413 | a call at or above the joining altitude leaves the slots as they were |
| MsisSpecies.JoinedTwice | GeoAtmos/src/Nrlmsise00.hpp:409-413 | two `densu` calls leave the slots as one call at the lower altitude does |
| MsisSpecies.CarriedAt | GeoAtmos/src/Nrlmsise00.hpp:1019-1041 | the mixed density is `densu` from the turbopause density with the mean mass |
| MsisSpecies.TurbopauseAt | GeoAtmos/src/Nrlmsise00.hpp:1044-1060 | `b` is `densu` at the turbopause height with mass `mass - xmm` |
| MsisSpecies.MixingAt | GeoAtmos/src/Nrlmsise00.hpp:1044-1077 | mixing fails only with `MathmaticalError` |
| MsisSpecies.MixingIsPositive | GeoAtmos/src/Nrlmsise00.hpp:158-173 | a successful mixing has positive diffusive, mixed and combined densities |
| MsisSpecies.CorrectionIsPositive | GeoAtmos/src/Nrlmsise00.hpp:133-150 | every chemistry or ground-ratio correction is a positive factor |
| MsisSpecies.SpeciesDensity | GeoAtmos/src/Nrlmsise00.hpp:1044-1287 | a gas is mixed iff its recipe says so; failure only with `MathmaticalError` |
| MsisSpecies.UnmixedIsDiffusive | GeoAtmos/src/Nrlmsise00.hpp:1044-1287 | with mixing off a gas keeps its diffusive `densu` density |
| MsisSpecies.MixedDensityIsPositive | GeoAtmos/src/Nrlmsise00.hpp:1044-1287 | a positive blend times its corrections is positive |
| MsisSpecies.DepartedMixedIsPositive | GeoAtmos/src/Nrlmsise00.hpp:1121-1165 | O2's departure correction keeps a positive density positive |
| MsisSpecies.MixedOutcome | GeoAtmos/src/Nrlmsise00.hpp:1044-1287 | a mixed density is the `dnet` blend of the diffusive and carried densities times the corrections |
| MsisSpecies.MixedIsPositive | GeoAtmos/src/Nrlmsise00.hpp:1044-1287 | every mixed gas density is positive |
| MsisSpecies.NitrogenDensity | GeoAtmos/src/Nrlmsise00.hpp:1019-1041 | `b28` is always `densu` at the turbopause; unmixed N2 is its diffusive density; mixed N2 records `b28` |
| MsisSpecies.HotProfile | GeoAtmos/src/Nrlmsise00.hpp:1293-1294 | anomalous oxygen uses the same nodes with `tho` as exospheric and boundary temperature |
| MsisSpecies.AnomalousOxygen | GeoAtmos/src/Nrlmsise00.hpp:1290-1298 | fails only with `MathmaticalError` |
| MsisSpecies.HotOxygenFactorAtReference | GeoAtmos/src/Nrlmsise00.hpp:1298 | the height factor is 1 at `zmho` |
| MsisSpecies.AnomalousOxygenAtReference | GeoAtmos/src/Nrlmsise00.hpp:1290-1298 | at `zmho` anomalous oxygen is its diffusive density |
| MsisSpecies.DensuOnNodes | GeoAtmos/src/Nrlmsise00.hpp:381-471 | `densu` on the node arrays returns `DensuAt` and moves the slots as `SlotsAfter` says |
| MsisSpecies.JoinNodes | GeoAtmos/src/Nrlmsise00.hpp:409-413 | the slot writes of a `densu` call keep the arrays on the profile |
| MsisSpecies.SpeciesOnNodes | GeoAtmos/src/Nrlmsise00.hpp:1044-1287 | a gas block on the arrays returns `SpeciesDensity`, keeps the arrays on the profile and leaves the joining slots its lowest `densu` call writes |
| MsisSpecies.NitrogenOnNodes | GeoAtmos/src/Nrlmsise00.hpp:1019-1041 | the N2 block on the arrays returns `NitrogenDensity`, keeps the arrays on the profile and leaves the joining slots of its lowest `densu` call |
| MsisSpecies.AnomalousOxygenOnNodes | GeoAtmos/src/Nrlmsise00.hpp:1290-1298 | the anomalous-oxygen block on the arrays returns `AnomalousOxygen` |
| MsisThermosphere.JoiningHeights | GeoAtmos/src/Nrlmsise00.hpp:974-975 | `zn1` has five heights, from `za = pdl[1][15]` down to 72.5 km |
| MsisThermosphere.ExosphericTemperature | GeoAtmos/src/Nrlmsise00.hpp:978-983 | at or below `za` `tinf = ptm[0] * pt[0]` with no `globe7` call; only `pt` may change |
| MsisThermosphere.BoundaryGradient | GeoAtmos/src/Nrlmsise00.hpp:985-989 | at or below 72.5 km `g0 = ptm[3] * ps[0]` with no call; only `ps` may change |
| MsisThermosphere.BoundaryTemperature | GeoAtmos/src/Nrlmsise00.hpp:990 | `tlb` floors only `pd[3]` |
| MsisThermosphere.ExosphereStage | GeoAtmos/src/Nrlmsise00.hpp:978-991 | the three calls keep the read-only tables and `glob7s`'s rows |
| MsisThermosphere.ExosphereBelowJoin | GeoAtmos/src/Nrlmsise00.hpp:978-983 | below `za` the exospheric temperature is its average |
| MsisThermosphere.AverageNodes | GeoAtmos/src/Nrlmsise00.hpp:1001-1005 | four node averages, the last being `ptm[4] * ptl[3][0]` |
| MsisThermosphere.UpperNodes | GeoAtmos/src/Nrlmsise00.hpp:995-997 | three nodes or `InvalidValue`; `globe7`'s rows untouched |
| MsisThermosphere.VariedNodes | GeoAtmos/src/Nrlmsise00.hpp:995-1000 | four nodes or `InvalidValue`; `globe7`'s rows untouched |
| MsisThermosphere.NodeStage | GeoAtmos/src/Nrlmsise00.hpp:993-1007 | at or above 300 km the averages with no `glob7s` call; a failure only below 300 km |
| MsisThermosphere.ProfileOf | GeoAtmos/src/Nrlmsise00.hpp:974-1007 | the shared profile has the joining heights |
| MsisThermosphere.NitrogenStage | GeoAtmos/src/Nrlmsise00.hpp:1010-1041 | N2 is mixed iff switch 15 is on and `z <= 160` km |
| MsisThermosphere.OutputIndex | GeoAtmos/src/Nrlmsise00.hpp:1044-1287 | each gas after N2 has its own output slot, never N2's or the mass slot |
| MsisThermosphere.DensityRow | GeoAtmos/src/Nrlmsise00.hpp:1044-1287 | each gas's `pd` row is neither N2's nor `tlb`'s |
| MsisThermosphere.MixRow | GeoAtmos/src/Nrlmsise00.hpp:1044-1287 | each gas's `pdm` row is not N2's |
| MsisThermosphere.RecipeOf | GeoAtmos/src/Nrlmsise00.hpp:1044-1287 | mass, `alpha`, mixing ceiling and turbopause height of each gas; only O2 has a departure correction |
| MsisThermosphere.GasStage | GeoAtmos/src/Nrlmsise00.hpp:1044-1287 | one gas block fails only with `MathmaticalError` and keeps `glob7s`'s rows |
| MsisThermosphere.GasUnmixedIsDiffusive | GeoAtmos/src/Nrlmsise00.hpp:1044-1287 | with switch 15 off each gas is its diffusive density from its boundary value |
| MsisThermosphere.HotOxygenStage | GeoAtmos/src/Nrlmsise00.hpp:1290-1298 | fails only with `MathmaticalError` and keeps `glob7s`'s rows |
| MsisThermosphere.GasChain | GeoAtmos/src/Nrlmsise00.hpp:1044-1287 | a run of gases yields one density per gas |
| MsisThermosphere.GasChainFailsOnArithmetic | GeoAtmos/src/Nrlmsise00.hpp:1044-1287 | a run of gases fails only with `MathmaticalError` |
| MsisThermosphere.Densities | GeoAtmos/src/Nrlmsise00.hpp:1019-1302 | nine densities in output order, each gas in its slot, with the mass identity |
| MsisThermosphere.InUnits | GeoAtmos/src/Nrlmsise00.hpp:1310-1314 | switch 0 converts every species by 1e6 and keeps the identity in the new units |
| MsisThermosphere.ProfileStage | GeoAtmos/src/Nrlmsise00.hpp:974-1007 | the profile fails only below 300 km with `InvalidValue`; below `za` `tinf` is the average |
| MsisThermosphere.SpeciesStage | GeoAtmos/src/Nrlmsise00.hpp:1010-1302 | nine mass-consistent densities; `dm28` changes only when N2 is mixed |
| MsisThermosphere.Gts7Outcome | GeoAtmos/src/Nrlmsise00.hpp:1304-1314 | `t[0] = tinf`, and at or above `za` `t[1]` is the Bates temperature at `|alt|` |
| MsisThermosphere.Gts7Spec | GeoAtmos/src/Nrlmsise00.hpp:946-1316 | `gts7`: nine densities with the identity in the selected units; `t[0] = tinf` (its average below `za`); the Bates temperature above `za`; `dm28` kept unless N2 is mixed; `InvalidValue` only below 300 km |
| MsisMesosphere.MesosphereNodes | GeoAtmos/src/Nrlmsise00.hpp:789-796 | four mesosphere nodes whose top node and gradient are the thermosphere's lowest; `InvalidValue` otherwise |
| MsisMesosphere.UpperStratoNodes | GeoAtmos/src/Nrlmsise00.hpp:804-806 | three stratosphere nodes or `InvalidValue` |
| MsisMesosphere.VariedStratoNodes | GeoAtmos/src/Nrlmsise00.hpp:803-810 | five nodes joined to the mesosphere's bottom node and gradient |
| MsisMesosphere.StratosphereNodes | GeoAtmos/src/Nrlmsise00.hpp:796-811 | at or above 32.5 km the old nodes with the new top and no `glob7s` call; below, the varied ones |
| MsisMesosphere.BlendEnds | GeoAtmos/src/Nrlmsise00.hpp:824 | with weight 0 the blend is the mixed density, with weight 1 the diffusive ratio applied |
| MsisMesosphere.WithMassDensity | GeoAtmos/src/Nrlmsise00.hpp:849-851 | filling `d[5]` gives the identity in the selected units and changes nothing else |
| MsisMesosphere.DensmIgnoresStartingTemperature | GeoAtmos/src/Nrlmsise00.hpp:287-379 | below `zn2[0]` `densm` does not read the `tz` it is handed |
| MsisMesosphere.MixedDensities | GeoAtmos/src/Nrlmsise00.hpp:827-846 | O, H, N and anomalous O are 0; with `dmc == 0` He, O2, Ar are N2 times their ground ratios |
| MsisMesosphere.LowerDensitiesFrom | GeoAtmos/src/Nrlmsise00.hpp:814-851 | nine mass-consistent densities; fully mixed at or below 62.5 km |
| MsisMesosphere.LowerDensities | GeoAtmos/src/Nrlmsise00.hpp:814-855 | the lower densities and temperature; failure only with `MathmaticalError` |
| MsisDriver.SwitchWeights | GeoAtmos/src/Nrlmsise00.hpp:108-125 | `sw[i]` is `tselec`'s weight for switch `i` |
| MsisDriver.CrossWeights | GeoAtmos/src/Nrlmsise00.hpp:108-125 | `swc[i]` is `tselec`'s cross weight for switch `i` |
| MsisDriver.MetricWeight | GeoAtmos/src/Nrlmsise00.hpp:1311 | `sw[0]` is non-zero iff switch 0 is 1 |
| MsisDriver.LowerAtmosphere | GeoAtmos/src/Nrlmsise00.hpp:786-855 | below 72.5 km: O, H, N, anomalous O are 0; full mixing at or below 62.5 km; `tn2[0]`/`tgn2[0]` from the thermosphere; `tn3[0] = tn2[3]` |
| MsisDriver.LowerFromNodes | GeoAtmos/src/Nrlmsise00.hpp:814-855 | the lower densities from the nodes, with the state keeping those nodes |
| MsisDriver.LowerNodes | GeoAtmos/src/Nrlmsise00.hpp:786-811 | both node sets, joined at the top and at 32.5 km |
| MsisDriver.Gtd7Spec | GeoAtmos/src/Nrlmsise00.hpp:756-856 | `gtd7`: nine densities with the identity in the selected units; `t[0] = tinf`; below 72.5 km O, H, N and anomalous O are 0; fully mixed at or below 62.5 km |
| MsisDriver.Gtd7At | GeoAtmos/src/Nrlmsise00.hpp:771-856 | the same once gravity is set, including O, H, N and anomalous O at 0 below 72.5 km |
| MsisDriver.Gtd7Below | GeoAtmos/src/Nrlmsise00.hpp:776-856 | after `gts7`: at or above 72.5 km exactly its densities, temperatures and state; below, the lower atmosphere with O, H, N and anomalous O at 0 |
| MsisDriver.Gtd7AboveIsGts7 | GeoAtmos/src/Nrlmsise00.hpp:771-782 | at or above 72.5 km `gtd7` fails iff `gts7` at that altitude does, with its error, and otherwise reports `gts7`'s densities, temperatures and state after setting gravity |
| MsisDriver.WithAnomalousOxygenMass | GeoAtmos/src/Nrlmsise00.hpp:751-753 | the recomputed `d[5]` counts anomalous oxygen; every other entry kept |
| MsisDriver.Gtd7dSpec | GeoAtmos/src/Nrlmsise00.hpp:748-754 | `gtd7d` fails iff `gtd7` does, with its error; on success the same temperatures, state and densities except `d[5]`, which counts anomalous oxygen |
| MsisDriver.Ghp7From | GeoAtmos/src/Nrlmsise00.hpp:907-943 | from the `l`-th pass on, every answer is a converged, mass-consistent evaluation |
| MsisDriver.Ghp7After | GeoAtmos/src/Nrlmsise00.hpp:916-942 | the end-of-pass test answers only with a converged, mass-consistent evaluation; its failures are `InvalidValue` or `MathmaticalError` |
| MsisDriver.Ghp7Spec | GeoAtmos/src/Nrlmsise00.hpp:858-944 | `ghp7` answers only with an evaluation whose pressure matches `press` to 0.00043 in log10 |
| MsisDriver.Ghp7PassOutcome | GeoAtmos/src/Nrlmsise00.hpp:916-942 | a pass stops with its evaluation on convergence, fails with `MathmaticalError` at the twelfth pass, and otherwise searches on from `NextAltitude` |
| MsisDriver.Ghp7PassAt | GeoAtmos/src/Nrlmsise00.hpp:909-929 | a pass whose `gtd7` fails fails with that error; a converged evaluation is the answer; an unconverged twelfth pass is `MathmaticalError` |
| MsisDriver.Ghp7FirstPass | GeoAtmos/src/Nrlmsise00.hpp:858-929 | a first evaluation at the initial altitude guess that fails or converges decides `ghp7`'s outcome |
| MsisDriver.Ghp7FromGivesUp | GeoAtmos/src/Nrlmsise00.hpp:907-943 | when every pass from the `l`-th on evaluates successfully without converging (`MissesFrom`, along the search's own engines and altitudes), the search ends in `MathmaticalError` |
| MsisDriver.Ghp7FromGivesUpOnlyByMissing | GeoAtmos/src/Nrlmsise00.hpp:907-943 | when every evaluation of the search succeeds (`EvaluatesFrom`), a `MathmaticalError` result means every pass missed |
| MsisDriver.Ghp7GivesUp | GeoAtmos/src/Nrlmsise00.hpp:858-944 | when the search from the initial altitude guess misses at every pass, `ghp7` fails with `MathmaticalError` |
| MsisDriver.Ghp7GivesUpOnlyByMissing | GeoAtmos/src/Nrlmsise00.hpp:858-944 | when every evaluation of `ghp7`'s search succeeds, a `MathmaticalError` result means every pass missed |
| MsisEngine.ConditionsOf | GeoAtmos/src/GeoAtmosType.hpp:42-54 | the fields the expansions read, with the seven-entry Ap history |
| MsisEngine.AddSwitched | GeoAtmos/src/Nrlmsise00.hpp:658-661 | the closing loop adds `SwitchedSum` of the fourteen terms |
| MsisEngine.ConvertToMetric | GeoAtmos/src/Nrlmsise00.hpp:1310-1314 | the in-place conversion leaves `ToMetric` of the old densities |
| MsisEngine.StoreInUnits | GeoAtmos/src/Nrlmsise00.hpp:1300-1314 | the output holds `InUnits` of the densities and the two temperatures |
| MsisEngine.RecountMass | GeoAtmos/src/Nrlmsise00.hpp:751-753 | the in-place correction leaves `WithAnomalousOxygenMass` |
| MsisEngine.Nrlmsise.constructor | GeoAtmos/src/Nrlmsise00.hpp:29-64 | an engine over the given tables with fresh, distinct node arrays |
| MsisEngine.Nrlmsise.Tselec | GeoAtmos/src/Nrlmsise00.hpp:108-125 | `tselec` fills `sw` and `swc` with the weights of the switches |
| MsisEngine.Nrlmsise.Globe7 | GeoAtmos/src/Nrlmsise00.hpp:473-662 | returns and leaves exactly `Globe7Call` of the state it found |
| MsisEngine.Nrlmsise.Glob7s | GeoAtmos/src/Nrlmsise00.hpp:664-746 | returns and leaves exactly `Glob7sCall` |
| MsisEngine.Nrlmsise.EvaluateTinf | GeoAtmos/src/Nrlmsise00.hpp:978-983 | `ExosphericTemperature` of the state |
| MsisEngine.Nrlmsise.EvaluateG0 | GeoAtmos/src/Nrlmsise00.hpp:985-989 | `BoundaryGradient` of the state |
| MsisEngine.Nrlmsise.EvaluateTlb | GeoAtmos/src/Nrlmsise00.hpp:990 | `BoundaryTemperature` of the state |
| MsisEngine.Nrlmsise.EvaluateExosphere | GeoAtmos/src/Nrlmsise00.hpp:978-991 | `ExosphereStage` of the state |
| MsisEngine.Nrlmsise.EvaluateUpperNodes | GeoAtmos/src/Nrlmsise00.hpp:995-997 | `UpperNodes` of the state |
| MsisEngine.Nrlmsise.EvaluateVariedNodes | GeoAtmos/src/Nrlmsise00.hpp:995-1000 | `VariedNodes` of the state |
| MsisEngine.Nrlmsise.EvaluateNodes | GeoAtmos/src/Nrlmsise00.hpp:993-1007 | writes `NodeStage`'s nodes into `tn1[1..4]` and `tgn1[1]` |
| MsisEngine.Nrlmsise.EvaluateProfile | GeoAtmos/src/Nrlmsise00.hpp:974-1007 | `ProfileStage`, with the profile on the node arrays |
| MsisEngine.Nrlmsise.EvaluateNitrogen | GeoAtmos/src/Nrlmsise00.hpp:1010-1041 | `NitrogenStage`, the arrays kept on the profile |
| MsisEngine.Nrlmsise.EvaluateGas | GeoAtmos/src/Nrlmsise00.hpp:1044-1287 | `GasStage` |
| MsisEngine.Nrlmsise.EvaluateGasChain | GeoAtmos/src/Nrlmsise00.hpp:1044-1287 | `GasChain` |
| MsisEngine.Nrlmsise.EvaluateHotOxygen | GeoAtmos/src/Nrlmsise00.hpp:1290-1298 | `HotOxygenStage` |
| MsisEngine.Nrlmsise.EvaluateSpecies | GeoAtmos/src/Nrlmsise00.hpp:1010-1302 | `SpeciesStage`, with `dm28` updated |
| MsisEngine.Nrlmsise.StoreOutcome | GeoAtmos/src/Nrlmsise00.hpp:1300-1314 | writes `Gts7Outcome` into the output |
| MsisEngine.Nrlmsise.Gts7 | GeoAtmos/src/Nrlmsise00.hpp:946-1316 | fails exactly when `Gts7Spec` does, with its error; otherwise the output, `dm28`, tables, cache and node arrays are `Gts7Spec`'s |
| MsisEngine.Nrlmsise.EvaluateMesosphere | GeoAtmos/src/Nrlmsise00.hpp:789-796 | `MesosphereNodes` of the state |
| MsisEngine.Nrlmsise.EvaluateUpperStrato | GeoAtmos/src/Nrlmsise00.hpp:804-806 | `UpperStratoNodes` of the state |
| MsisEngine.Nrlmsise.EvaluateVariedStrato | GeoAtmos/src/Nrlmsise00.hpp:803-810 | `VariedStratoNodes` of the state |
| MsisEngine.Nrlmsise.EvaluateStratosphere | GeoAtmos/src/Nrlmsise00.hpp:796-811 | `StratosphereNodes` of the state |
| MsisEngine.Nrlmsise.LowerOutput | GeoAtmos/src/Nrlmsise00.hpp:814-855 | writes `LowerDensities` into the output |
| MsisEngine.Nrlmsise.EvaluateLowerNodes | GeoAtmos/src/Nrlmsise00.hpp:786-811 | `LowerNodes` of the state |
| MsisEngine.Nrlmsise.EvaluateLower | GeoAtmos/src/Nrlmsise00.hpp:786-855 | delivers `LowerAtmosphere` |
| MsisEngine.Nrlmsise.EvaluateFromNodes | GeoAtmos/src/Nrlmsise00.hpp:814-855 | delivers `LowerFromNodes` |
| MsisEngine.Nrlmsise.StoreLowerNodes | GeoAtmos/src/Nrlmsise00.hpp:789-811 | the four node arrays hold the mesosphere and stratosphere nodes |
| MsisEngine.Nrlmsise.Gtd7 | GeoAtmos/src/Nrlmsise00.hpp:756-856 | fills the weights and delivers `Gtd7Spec` of the state it found: same error, or output and new state; the altitude restored on success |
| MsisEngine.Nrlmsise.EvaluateAt | GeoAtmos/src/Nrlmsise00.hpp:771-856 | delivers `Gtd7At` |
| MsisEngine.Nrlmsise.EvaluateAbove | GeoAtmos/src/Nrlmsise00.hpp:771-777 | `gts7` at the clamped altitude into a fresh output |
| MsisEngine.Nrlmsise.EvaluateBelow | GeoAtmos/src/Nrlmsise00.hpp:776-856 | delivers `Gtd7Below` |
| MsisEngine.Nrlmsise.Gtd7d | GeoAtmos/src/Nrlmsise00.hpp:748-754 | delivers `Gtd7dSpec` |
| MsisEngine.Nrlmsise.Ghp7Step | GeoAtmos/src/Nrlmsise00.hpp:909-942 | one pass: done with `Ghp7From`'s answer, or on to the next altitude with the same answer ahead |
| MsisEngine.Nrlmsise.Ghp7Judge | GeoAtmos/src/Nrlmsise00.hpp:916-942 | the end-of-pass test answers as `Ghp7After` |
| MsisEngine.Nrlmsise.Ghp7 | GeoAtmos/src/Nrlmsise00.hpp:858-944 | answers `Ghp7Spec`: its error, or the altitude in `input.alt` with the converged evaluation in the output |
| GeoAtmosFacade.Kilometres | GeoAtmos/src/GeoAtmosDensity.hpp:252 | metres to km: the result times 1000 is the input |
| GeoAtmosFacade.LocalSolarTime | GeoAtmos/src/GeoAtmosDensity.hpp:258 | at longitude 0 the local time is the UT hour |
| GeoAtmosFacade.LocalSolarTimeShift | GeoAtmos/src/GeoAtmosDensity.hpp:258 | 15 degrees east is one hour later |
| GeoAtmosFacade.InputConditions | GeoAtmos/src/GeoAtmosDensity.hpp:251-262 | the engine sees the position's day, second, latitude, longitude, local time, the flux and the Ap values given |
| GeoAtmosFacade.AssembleInput | GeoAtmos/src/GeoAtmosDensity.hpp:251-262 | the input record holds the altitude in km and `InputConditions` |
| GeoAtmosFacade.UnitSwitch | GeoAtmos/src/GeoAtmosDensity.hpp:227-235 | `Off` iff g/cm^3 or CGS, `On` iff kg/m^3 or SI |
| GeoAtmosFacade.UnitSwitchMetric | GeoAtmos/src/GeoAtmosDensity.hpp:227-235 | after `configureDensityUnit` the engine is metric iff the unit is kg/m^3 or SI |
| GeoAtmosFacade.ScalarApMode | GeoAtmos/src/GeoAtmosDensity.hpp:277 | `Specific` becomes `On`; other settings are kept |
| GeoAtmosFacade.IndexModeSwitches | GeoAtmos/src/GeoAtmosDensity.hpp:247-248 | in index mode switch 9 is -1, so `globe7` and `glob7s` read the Ap history |
| GeoAtmosFacade.ScalarModeSwitches | GeoAtmos/src/GeoAtmosDensity.hpp:277-278 | in scalar mode switch 9 is 0 or 1, never the history mode |
| GeoAtmosFacade.ArraysOf | GeoAtmos/src/GeoAtmosDensity.hpp:266-268 | named parameters come from nine densities and two temperatures |
| GeoAtmosFacade.ParametersRoundTrip | GeoAtmos/src/GeoAtmosDensity.hpp:266-268 | the naming is a bijection: every output entry lands in exactly one field |
| GeoAtmosFacade.ReportedMass | GeoAtmos/src/GeoAtmosDensity.hpp:266-268 | a report of a mass-consistent output has the atmosphere field equal to the mass of its species |
| GeoAtmosFacade.GeoAtmosDensity.constructor | GeoAtmos/src/GeoAtmosDensity.hpp:200 | a fresh engine with the default switch record |
| GeoAtmosFacade.GeoAtmosDensity.WithUnit | GeoAtmos/src/GeoAtmosDensity.hpp:202 | the default record with the unit switch for `unit` |
| GeoAtmosFacade.GeoAtmosDensity.WithConfig | GeoAtmos/src/GeoAtmosDensity.hpp:204 | a fresh engine with the given record |
| GeoAtmosFacade.GeoAtmosDensity.ConfigureModel | GeoAtmos/src/GeoAtmosDensity.hpp:225 | the record is replaced |
| GeoAtmosFacade.GeoAtmosDensity.ConfigureDensityUnit | GeoAtmos/src/GeoAtmosDensity.hpp:227-235 | only the unit switch changes, to `UnitSwitch(unit)` |
| GeoAtmosFacade.GeoAtmosDensity.EvaluateWithIndex | GeoAtmos/src/GeoAtmosDensity.hpp:241-269 | stores `Specific` as daily Ap, reports `gtd7`'s outcome with the history, and a reported atmosphere is the mass of its species |
| GeoAtmosFacade.GeoAtmosDensity.EvaluateWithAp | GeoAtmos/src/GeoAtmosDensity.hpp:271-299 | stores `ScalarApMode` of the daily-Ap switch, reports `gtd7`'s outcome with the scalar Ap, with the same mass property |
| GeoAtmosFacade.GeoAtmosDensity.Evaluate | GeoAtmos/src/GeoAtmosDensity.hpp:250-268 | the shared body: convert, assemble, `gtd7`, name |

## Left out

- Coordinate conversions (`Eci`/`Ecef` to `Wgs84`) and `DateTime`: these
  headers are not part of this model. The four coordinate overloads of
  `operator()` (GeoAtmosDensity.hpp:206-220) convert and then call the
  `Wgs84` overload, which is modelled on a `Position` value holding
  altitude, latitude, longitude, year, day of year and second of day.
- Uninitialised fields: the index overload leaves `input.ap` unset and the
  scalar overload leaves `input.ap_a` unset. Their values are parameters
  (`unsetAp`, `unsetApA`) of `EvaluateWithIndex` and `EvaluateWithAp`. With
  the switch settings each overload forces, `globe7` and `glob7s` do not
  read those fields.
- Doubles: rounding, overflow, infinities and NaN are not modelled.
  Division by zero yields an unspecified value (`Div`). The transcendental
  functions are unspecified except for the laws in `Lawful`.
- `SpaceWeather.hpp`, the `Example` programs and `TemperatureUnit` are
  outside the core.
- Write-only engine fields: `dd` and the `dm04`, `dm16`, `dm32`, `dm40`,
  `dm01`, `dm14` mixed densities are assigned and never read. Only `dd`
  (as a field) and `dm28` (read by `gtd7` below 72.5 km) are kept.
- Order of array writes: within one evaluation the node values are
  computed first and written to `meso_tn1` … `meso_tgn3` afterwards. No
  routine reads these arrays between those points, so the order is not
  observable.
- Input record: the fields other than `alt` are constants of the
  `NrlmsiseInput` class, because no routine writes them. The Ap history
  is held by value (`seq`).
- Nrlmsise.Gts7, Nrlmsise.Gtd7, Nrlmsise.Gtd7d, Nrlmsise.Ghp7: on a
  failure the contract states the error but not the partly updated state
  (tables, cache, node arrays, output) that the exception leaves behind.
- Nrlmsise.Gtd7: when `gts7` fails, `input.alt` keeps the altitude clamped
  to 72.5 km, because the exception skips the swap back. The contract
  states the restored altitude only on success.
- GeoAtmosDensity.EvaluateWithIndex, GeoAtmosDensity.EvaluateWithAp: the
  engine's state after a failed call is not stated. On success it is the
  new state `gtd7` leaves.
- MsisSpecies.SpeciesOnNodes, MsisSpecies.NitrogenOnNodes: the densities
  are computed on the profile value (`SpeciesDensity`,
  `NitrogenDensity`), and the joining-slot writes of their `densu` calls
  are replayed on the arrays with `JoinNodes`; `densu` does not run on the
  arrays. `DensuIgnoresJoiningSlots` shows that the slots' old contents do
  not affect the results, so only the order of the writes is not captured.
- Legendre table: the entries `globe7` never writes are kept from the
  previous table (`LegendreUpdate`). They start at 0, since nothing reads
  them before they are written.
- Coefficient tables and the static arrays `zn1`, `alpha`, `altl` come
  from `Model.hpp` (`ModelSet`), which is not part of this model. The
  tables are an opaque `Tables` value; `zn1`, `alpha` and `altl` are
  written out as constants (`JoiningHeights`, `Alpha`, `Ceiling`).
