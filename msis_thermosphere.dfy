/** `gts7`, the thermosphere above 72.5 km, as a function of the engine's
    state: the coefficient tables, the harmonic cache and the N2 mixed
    density `dm28` kept from the last evaluation.

    The evaluation runs in a fixed order, and every `globe7` call refreshes
    the cache the next `glob7s` call reads, so the stages below thread the
    tables and the cache from one to the next exactly as the engine does:
    the exospheric temperature, the lower-boundary temperature and gradient
    (rows `pt`, `ps`, `pd[3]`), the node temperatures of the lower
    thermosphere (rows `ptl[0..3]`, `pma[8]`), N2 (`pd[2]`), He, O, O2, Ar,
    H, N (`pd[0]`, `pd[1]`, `pd[4..7]`), anomalous oxygen (`pd[8]`), the
    total mass density, the temperature at the altitude and the unit
    conversion. */
module MsisThermosphere {
  import opened Numerics
  import opened MsisFunctions
  import opened MsisProfiles
  import opened MsisHarmonics
  import opened MsisSpecies
  import opened MsisTables

  /** Thermal diffusion coefficients of He, O, N2, O2, Ar, -, H, N and
      anomalous O (`alpha`). */
  const Alpha: seq<real> := [-0.38, 0.0, 0.0, 0.0, 0.17, 0.0, -0.38, 0.0, 0.0]

  /** Altitude ceilings of the turbopause mixing of He, O, N2, O2, Ar, -, H
      and N (`altl`), in km. */
  const Ceiling: seq<real> := [200.0, 300.0, 160.0, 250.0, 240.0, 450.0, 320.0, 450.0]

  /** Above this altitude the lower-thermosphere nodes take their average
      values. */
  const NodeVariationTop: real := 300.0

  /** The spline heights of the lower thermosphere (`zn1`): the joining
      altitude `za`, then 110, 100, 90 and 72.5 km. */
  function JoiningHeights(za: real): (zn1: seq<real>)
    ensures |zn1| == 5 && zn1[0] == za && zn1[4] == MesosphereTop
  {
    [za, 110.0, 100.0, 90.0, 72.5]
  }

  // ---------------------------------------------------------- exosphere

  /** The temperatures that shape the profile: exospheric `tinf`, the
      gradient `g0` and temperature `tlb` at the lower boundary, and the
      shape `s = g0 / (tinf - tlb)`. */
  datatype Exosphere = Exosphere(tinf: real, g0: real, tlb: real, s: real)

  /** An average value `a * b` varied by a switched harmonic: `a * b * (1 +
      w * g)`. */
  function Varied(a: real, b: real, w: real, g: real): real
  {
    a * b * (1.0 + w * g)
  }

  /** The average exospheric temperature, `ptm[0] * pt[0]`. */
  function AverageExosphericTemperature(t: Tables): real
    requires TablesShape(t)
  {
    t.ptm[0] * t.pt[0]
  }

  /** The exospheric temperature `tinf`: above the joining altitude it
      varies with `globe7` on `pt`; below, it is the average `ptm[0] *
      pt[0]` and `pt` is not evaluated (nor floored). */
  function ExosphericTemperature(m: Math, t: Tables, k: HarmonicCache, c: Conditions, alt: real,
                                 sw: seq<real>, swc: seq<real>): (r: Evaluation)
    requires TablesShape(t) && CacheShape(k) && |sw| == 24 && |swc| == 24 && |c.apA| == 7
    ensures TablesShape(r.tables) && CacheShape(r.cache) && ReadOnlyKept(r.tables, t) && LowerRowsKept(r.tables, t)
    ensures r.tables.ps == t.ps && r.tables.pd == t.pd
    ensures alt <= t.pdl[1][15] ==> r == Evaluation(AverageExosphericTemperature(t), t, k)
  {
    if alt > t.pdl[1][15] then
      var e := Globe7Call(m, t, k, Pt, c, sw, swc);
      Evaluation(Varied(t.ptm[0], t.pt[0], sw[16], e.value), e.tables, e.cache)
    else Evaluation(AverageExosphericTemperature(t), t, k)
  }

  /** The temperature gradient `g0` at the lower boundary: above 72.5 km it
      varies with `globe7` on `ps`; below, it is `ptm[3] * ps[0]`. */
  function BoundaryGradient(m: Math, t: Tables, k: HarmonicCache, c: Conditions, alt: real,
                            sw: seq<real>, swc: seq<real>): (r: Evaluation)
    requires TablesShape(t) && CacheShape(k) && |sw| == 24 && |swc| == 24 && |c.apA| == 7
    ensures TablesShape(r.tables) && CacheShape(r.cache) && ReadOnlyKept(r.tables, t) && LowerRowsKept(r.tables, t)
    ensures r.tables.pt == t.pt && r.tables.pd == t.pd
    ensures alt <= MesosphereTop ==> r == Evaluation(t.ptm[3] * t.ps[0], t, k)
  {
    if alt > MesosphereTop then
      var e := Globe7Call(m, t, k, Ps, c, sw, swc);
      Evaluation(Varied(t.ptm[3], t.ps[0], sw[19], e.value), e.tables, e.cache)
    else Evaluation(t.ptm[3] * t.ps[0], t, k)
  }

  /** The temperature `tlb` at the lower boundary, from `globe7` on
      `pd[3]`. */
  function BoundaryTemperature(m: Math, t: Tables, k: HarmonicCache, c: Conditions,
                               sw: seq<real>, swc: seq<real>): (r: Evaluation)
    requires TablesShape(t) && CacheShape(k) && |sw| == 24 && |swc| == 24 && |c.apA| == 7
    ensures TablesShape(r.tables) && CacheShape(r.cache) && ReadOnlyKept(r.tables, t) && LowerRowsKept(r.tables, t)
    ensures r.tables.pt == t.pt && r.tables.ps == t.ps
    ensures r.tables.pd == t.pd[3 := Globe7Row(t.pd[3], sw)]
  {
    var e := Globe7Call(m, t, k, Pd(3), c, sw, swc);
    Evaluation(Varied(t.ptm[1], t.pd[3][0], sw[17], e.value), e.tables, e.cache)
  }

  /** The exosphere stage: `tinf`, `g0` and `tlb` in that order, each call
      seeing the tables and cache the previous one left. */
  datatype ExosphereEvaluation = ExosphereEvaluation(ex: Exosphere, tables: Tables, cache: HarmonicCache)

  function ExosphereStage(m: Math, t: Tables, k: HarmonicCache, c: Conditions, alt: real,
                          sw: seq<real>, swc: seq<real>): (r: ExosphereEvaluation)
    requires TablesShape(t) && CacheShape(k) && |sw| == 24 && |swc| == 24 && |c.apA| == 7
    ensures TablesShape(r.tables) && CacheShape(r.cache) && ReadOnlyKept(r.tables, t) && LowerRowsKept(r.tables, t)
  {
    var e1 := ExosphericTemperature(m, t, k, c, alt, sw, swc);
    var e2 := BoundaryGradient(m, e1.tables, e1.cache, c, alt, sw, swc);
    var e3 := BoundaryTemperature(m, e2.tables, e2.cache, c, sw, swc);
    ExosphereEvaluation(Exosphere(e1.value, e2.value, e3.value, Div(m, e2.value, e1.value - e3.value)), e3.tables, e3.cache)
  }

  /** Below the joining altitude the exospheric temperature is its average
      `ptm[0] * pt[0]`. */
  lemma ExosphereBelowJoin(m: Math, t: Tables, k: HarmonicCache, c: Conditions, alt: real, sw: seq<real>, swc: seq<real>)
    requires TablesShape(t) && CacheShape(k) && |sw| == 24 && |swc| == 24 && |c.apA| == 7
    requires alt <= t.pdl[1][15]
    ensures ExosphereStage(m, t, k, c, alt, sw, swc).ex.tinf == AverageExosphericTemperature(t)
  {
    var e1 := ExosphericTemperature(m, t, k, c, alt, sw, swc);
    assert e1.value == AverageExosphericTemperature(t);
  }

  // ------------------------------------------------- lower-thermosphere nodes

  /** A node temperature: the average `a * b` over `1 - w * g`. */
  function NodeTemperature(m: Math, a: real, b: real, w: real, g: real): real
  {
    Div(m, a * b, 1.0 - w * g)
  }

  /** The gradient at the lowest node, `a * b * (1 + w * g) * tn^2 /
      base^2`. */
  function NodeGradient(m: Math, a: real, b: real, w: real, g: real, tn: real, base: real): real
  {
    Div(m, a * b * (1.0 + w * g) * tn * tn, m.pow(base, 2.0))
  }

  /** The nodes without variation: `ptm[6] * ptl[0][0]`, `ptm[2] *
      ptl[1][0]`, `ptm[7] * ptl[2][0]` and `ptm[4] * ptl[3][0]`. */
  function AverageNodes(t: Tables): (tn: seq<real>)
    requires TablesShape(t)
    ensures |tn| == 4 && tn[3] == LowestNodeAverage(t)
  {
    [t.ptm[6] * t.ptl[0][0], t.ptm[2] * t.ptl[1][0], t.ptm[7] * t.ptl[2][0], LowestNodeAverage(t)]
  }

  /** The lowest node without variation, `ptm[4] * ptl[3][0]`, which also
      scales the gradient there. */
  function LowestNodeAverage(t: Tables): real
    requires TablesShape(t)
  {
    t.ptm[4] * t.ptl[3][0]
  }

  /** The gradient at the lowest node without variation, `a * b * tn^2 /
      base^2`. */
  function AverageNodeGradient(m: Math, a: real, b: real, tn: real, base: real): real
  {
    Div(m, a * b * tn * tn, m.pow(base, 2.0))
  }

  /** The lower-thermosphere nodes `tn1[1..4]` and the gradient `tgn1[1]`,
      with the tables `glob7s` leaves. */
  datatype NodeEvaluation = NodeEvaluation(tn: seq<real>, tgn: real, tables: Tables)

  /** Node temperatures with the tables `glob7s` leaves, part way through
      the varied nodes. */
  datatype NodeRun = NodeRun(tn: seq<real>, tables: Tables)

  /** The first three varied nodes, `tn1[1..3]`: `glob7s` on `ptl[0..2]`
      in that order, each weighted by the switch of the lower
      thermosphere; a refused tag stops the evaluation. */
  function UpperNodes(m: Math, t: Tables, k: HarmonicCache, c: Conditions,
                      sw: seq<real>, swc: seq<real>): (r: Result<NodeRun>)
    requires TablesShape(t) && CacheShape(k) && |sw| == 24 && |swc| == 24
    ensures r.Success? ==> |r.value.tn| == 3 && TablesShape(r.value.tables)
    ensures r.Success? ==> ReadOnlyKept(r.value.tables, t) && GlobeRowsKept(r.value.tables, t)
    ensures r.Failure? ==> r.error == InvalidValue
  {
    var e0 := Glob7sCall(m, t, k, Ptl(0), c, sw, swc);
    if e0.value.Failure? then Failure(e0.value.error) else
    var e1 := Glob7sCall(m, e0.tables, k, Ptl(1), c, sw, swc);
    if e1.value.Failure? then Failure(e1.value.error) else
    var e2 := Glob7sCall(m, e1.tables, k, Ptl(2), c, sw, swc);
    if e2.value.Failure? then Failure(e2.value.error) else
    Success(NodeRun(
      [NodeTemperature(m, t.ptm[6], t.ptl[0][0], sw[18], e0.value.value),
       NodeTemperature(m, t.ptm[2], t.ptl[1][0], sw[18], e1.value.value),
       NodeTemperature(m, t.ptm[7], t.ptl[2][0], sw[18], e2.value.value)],
      e2.tables))
  }

  /** The varied nodes: after the first three, the lowest node `tn1[4]`
      varies with `glob7s` on `ptl[3]` and the gradient with `glob7s` on
      `pma[8]`, both weighted by the switches of the lower thermosphere
      and of the mesosphere; a refused tag stops the evaluation. */
  function VariedNodes(m: Math, t: Tables, k: HarmonicCache, c: Conditions,
                       sw: seq<real>, swc: seq<real>): (r: Result<NodeEvaluation>)
    requires TablesShape(t) && CacheShape(k) && |sw| == 24 && |swc| == 24
    ensures r.Success? ==> |r.value.tn| == 4 && TablesShape(r.value.tables)
    ensures r.Success? ==> ReadOnlyKept(r.value.tables, t) && GlobeRowsKept(r.value.tables, t)
    ensures r.Failure? ==> r.error == InvalidValue
  {
    var u := UpperNodes(m, t, k, c, sw, swc);
    if u.Failure? then Failure(u.error) else
    var e3 := Glob7sCall(m, u.value.tables, k, Ptl(3), c, sw, swc);
    if e3.value.Failure? then Failure(e3.value.error) else
    var e8 := Glob7sCall(m, e3.tables, k, Pma(8), c, sw, swc);
    if e8.value.Failure? then Failure(e8.value.error) else
    var tn4 := NodeTemperature(m, t.ptm[4], t.ptl[3][0], JointWeight(sw[18], sw[20]), e3.value.value);
    Success(NodeEvaluation(u.value.tn + [tn4],
      NodeGradient(m, t.ptm[8], t.pma[8][0], JointWeight(sw[18], sw[20]), e8.value.value, tn4, LowestNodeAverage(t)),
      e8.tables))
  }

  /** The node stage: varied below 300 km, the averages above. */
  function NodeStage(m: Math, t: Tables, k: HarmonicCache, c: Conditions, alt: real,
                     sw: seq<real>, swc: seq<real>): (r: Result<NodeEvaluation>)
    requires TablesShape(t) && CacheShape(k) && |sw| == 24 && |swc| == 24
    ensures r.Success? ==> |r.value.tn| == 4 && TablesShape(r.value.tables)
    ensures r.Success? ==> ReadOnlyKept(r.value.tables, t) && GlobeRowsKept(r.value.tables, t)
    ensures r.Failure? ==> r.error == InvalidValue && alt < NodeVariationTop
    ensures alt >= NodeVariationTop ==> r.Success? && r.value.tables == t
  {
    if alt < NodeVariationTop then VariedNodes(m, t, k, c, sw, swc)
    else
      var base4 := LowestNodeAverage(t);
      Success(NodeEvaluation(AverageNodes(t), AverageNodeGradient(m, t.ptm[8], t.pma[8][0], base4, base4), t))
  }

  /** The profile every `densu` call of the evaluation shares. */
  function ProfileOf(gsurf: real, re: real, t: Tables, ex: Exosphere, nodes: NodeEvaluation): (th: Thermosphere)
    requires TablesShape(t) && |nodes.tn| == 4
    ensures Fits(th) && th.zn1 == JoiningHeights(t.pdl[1][15])
  {
    Thermosphere(gsurf, re, ex.tinf, ex.tlb, t.ptm[5], ex.s, JoiningHeights(t.pdl[1][15]), nodes.tn, nodes.tgn)
  }

  // ----------------------------------------------------------------- N2

  /** A diffusive density at the lower boundary: `pdm * exp(g) * pd`. */
  function BaseDensity(m: Math, pdm0: real, g: real, pd0: real): real
  {
    pdm0 * m.exp(g) * pd0
  }

  /** `zhf`: the latitude and season variation of the turbopause height. */
  function TurbopauseVariation(m: Math, t: Tables, c: Conditions, sw: seq<real>): real
    requires TablesShape(t) && |sw| == 24
  {
    t.pdl[1][24] * (1.0 + sw[5] * t.pdl[0][24] * m.sin(m.deg(c.gLat)) * m.cos(m.doy(c.doy - t.pt[13])))
  }

  /** N2's diffusive density at the lower boundary, given the total `g` of
      `globe7` on `pd[2]`. */
  function NitrogenBoundary(m: Math, t: Tables, g: real, sw: seq<real>): real
    requires TablesShape(t) && |sw| == 24
  {
    BaseDensity(m, t.pdm[2][0], sw[21] * g, t.pd[2][0])
  }

  /** `zh28`: N2's turbopause height. */
  function TurbopauseHeight(m: Math, t: Tables, c: Conditions, sw: seq<real>): real
    requires TablesShape(t) && |sw| == 24
  {
    t.pdm[2][2] * TurbopauseVariation(m, t, c, sw)
  }

  /** `zhm28`: the mixing scale every gas's `dnet` uses. */
  function MixingScale(t: Tables): real
    requires TablesShape(t)
  {
    t.pdm[2][3] * t.pdl[1][5]
  }

  /** The N2 stage: its outcome, the turbopause density `b28`, and the
      tables and cache after `globe7` on `pd[2]`. */
  datatype NitrogenEvaluation = NitrogenEvaluation(outcome: Outcome, b28: real, tables: Tables, cache: HarmonicCache)

  function NitrogenStage(m: Math, th: Thermosphere, t: Tables, k: HarmonicCache, c: Conditions, z: real,
                         sw: seq<real>, swc: seq<real>): (r: Result<NitrogenEvaluation>)
    requires Fits(th) && TablesShape(t) && CacheShape(k) && |sw| == 24 && |swc| == 24 && |c.apA| == 7
    ensures r.Failure? ==> r.error == MathmaticalError
    ensures r.Success? ==> TablesShape(r.value.tables) && CacheShape(r.value.cache)
    ensures r.Success? ==> ReadOnlyKept(r.value.tables, t) && LowerRowsKept(r.value.tables, t)
    ensures r.Success? ==> (r.value.outcome.Mixed? <==> sw[15] != 0.0 && z <= Ceiling[2])
  {
    var e := Globe7Call(m, t, k, Pd(2), c, sw, swc);
    var n := NitrogenDensity(m, th, z, NitrogenBoundary(m, t, e.value, sw), Alpha[2], TurbopauseHeight(m, t, c, sw),
                             t.pdm[2][4], MixingScale(t), sw[15] != 0.0 && z <= Ceiling[2]);
    if n.Failure? then Failure(n.error) else Success(NitrogenEvaluation(n.value.0, n.value.1, e.tables, e.cache))
  }

  // -------------------------------------------------------- other gases

  /** The gases after N2, in the order `gts7` evaluates them. */
  datatype Gas = Helium | Oxygen | MolecularOxygen | Argon | Hydrogen | Nitrogen

  /** The gas's entry in the output densities, in `alpha` and in `altl`. */
  function OutputIndex(g: Gas): (i: nat)
    ensures i < 8 && i != 2 && i != 5
  {
    match g
    case Helium => 0
    case Oxygen => 1
    case MolecularOxygen => 3
    case Argon => 4
    case Hydrogen => 6
    case Nitrogen => 7
  }

  /** The gas's row of `pd` (its `globe7` coefficients). */
  function DensityRow(g: Gas): (i: nat)
    ensures i < 8 && i != 2 && i != 3
  {
    match g
    case Helium => 0
    case Oxygen => 1
    case MolecularOxygen => 4
    case Argon => 5
    case Hydrogen => 6
    case Nitrogen => 7
  }

  /** The gas's row of `pdm` (its boundary density and mixing parameters). */
  function MixRow(g: Gas): (i: nat)
    ensures i < 7 && i != 2
  {
    match g
    case Helium => 0
    case Oxygen => 1
    case MolecularOxygen => 3
    case Argon => 4
    case Hydrogen => 5
    case Nitrogen => 6
  }

  /** Atomic or molecular mass. */
  function Mass(g: Gas): real
  {
    match g
    case Helium => 4.0
    case Oxygen => 16.0
    case MolecularOxygen => 32.0
    case Argon => 40.0
    case Hydrogen => 1.0
    case Nitrogen => 14.0
  }

  /** Whether the gas is mixed at `z`: the mixing switch is on and `z` is
      under the gas's ceiling (strictly for He, inclusively for the rest). */
  predicate MixedAt(g: Gas, z: real, sw: seq<real>)
    requires |sw| == 24
  {
    sw[15] != 0.0 && (if g == Helium then z < Ceiling[0] else z <= Ceiling[OutputIndex(g)])
  }

  /** `f107A - 150`, the departure of the mean flux from 150. */
  function FluxOffset(c: Conditions): real
  {
    c.f107A - 150.0
  }

  /** The gas's treatment in `gts7`: turbopause height `pdm[i][2]`, the
      corrections of the mixed density (ground mixing ratio for all but O;
      a two-scale correction for O; chemistry for O, H and N) and, for O2,
      the departure from equilibrium while the mixing switch is on. */
  function RecipeOf(m: Math, g: Gas, t: Tables, c: Conditions, z: real, sw: seq<real>): (rc: Recipe)
    requires TablesShape(t) && |sw| == 24
    ensures rc.mass == Mass(g) && rc.alpha == Alpha[OutputIndex(g)] && rc.mixed == MixedAt(g, z, sw)
    ensures rc.zh == t.pdm[MixRow(g)][2]
    ensures g != MolecularOxygen ==> rc.departure == NoCorrection
  {
    var p := t.pdm[MixRow(g)];
    var l0 := t.pdl[0];
    var l1 := t.pdl[1];
    var (first, second, departure) :=
      match g
      case Helium => (GroundRatio(p[1], p[5] * l1[1], p[4] * l1[0]), NoCorrection, NoCorrection)
      case Oxygen =>
        (TwoScale(p[1] * l1[16] * (1.0 + sw[1] * l0[23] * FluxOffset(c)), p[5] * l1[3], p[4] * l1[2], p[5] * l1[4]),
         Chemistry(p[3] * l1[14], p[7] * l1[13], p[6] * l1[12]), NoCorrection)
      case MolecularOxygen =>
        (GroundRatio(p[1], p[5] * l1[7], p[4] * l1[6]), NoCorrection,
         TwoScale(p[3] * l1[23] * (1.0 + sw[1] * l0[23] * FluxOffset(c)), p[7] * l1[22], p[6] * l1[21], p[7] * l0[22]))
      case Argon => (GroundRatio(p[1], p[5] * l1[9], p[4] * l1[8]), NoCorrection, NoCorrection)
      case Hydrogen =>
        (GroundRatio(p[1] * m.sqrt(l1[17] * l1[17]), p[5] * l1[11], p[4] * l1[10]),
         Chemistry(p[3] * l1[20], p[7] * l1[19], p[6] * l1[18]), NoCorrection)
      case Nitrogen =>
        (GroundRatio(p[1] * m.sqrt(l0[2] * l0[2]), p[5] * l0[1], p[4] * l0[0]),
         Chemistry(p[3] * l0[5], p[7] * l0[4], p[6] * l0[3]), NoCorrection);
    Recipe(Mass(g), Alpha[OutputIndex(g)], MixedAt(g, z, sw), p[2], first, second, departure)
  }

  /** One gas's stage: `globe7` on its `pd` row, its boundary density, and
      its density at `z` given N2's turbopause density `b28`, the mean mass
      `xmm` and the mixing scale `zhm`. */
  datatype GasEvaluation = GasEvaluation(density: real, tables: Tables, cache: HarmonicCache)

  /** The gas's diffusive density at the lower boundary, given the total
      `g` of `globe7` on its `pd` row. */
  function GasBoundary(m: Math, g: Gas, t: Tables, e: real, sw: seq<real>): real
    requires TablesShape(t) && |sw| == 24
  {
    BaseDensity(m, t.pdm[MixRow(g)][0], sw[21] * e, t.pd[DensityRow(g)][0])
  }

  function GasStage(m: Math, g: Gas, th: Thermosphere, t: Tables, k: HarmonicCache, c: Conditions, z: real,
                    b28: real, xmm: real, zhm: real, sw: seq<real>, swc: seq<real>): (r: Result<GasEvaluation>)
    requires Fits(th) && TablesShape(t) && CacheShape(k) && |sw| == 24 && |swc| == 24 && |c.apA| == 7
    ensures r.Failure? ==> r.error == MathmaticalError
    ensures r.Success? ==> TablesShape(r.value.tables) && CacheShape(r.value.cache)
    ensures r.Success? ==> ReadOnlyKept(r.value.tables, t) && LowerRowsKept(r.value.tables, t)
  {
    var e := Globe7Call(m, t, k, Pd(DensityRow(g)), c, sw, swc);
    var o := SpeciesDensity(m, th, z, GasBoundary(m, g, t, e.value, sw), b28, xmm, zhm,
                            RecipeOf(m, g, t, c, z, sw), sw[15] != 0.0);
    if o.Failure? then Failure(o.error) else Success(GasEvaluation(o.value.density, e.tables, e.cache))
  }

  /** With the mixing switch off a gas keeps the diffusive density from its
      boundary density. */
  lemma GasUnmixedIsDiffusive(m: Math, g: Gas, th: Thermosphere, t: Tables, k: HarmonicCache, c: Conditions, z: real,
                              b28: real, xmm: real, zhm: real, sw: seq<real>, swc: seq<real>)
    requires Fits(th) && TablesShape(t) && CacheShape(k) && |sw| == 24 && |swc| == 24 && |c.apA| == 7
    requires sw[15] == 0.0
    ensures var e := Globe7Call(m, t, k, Pd(DensityRow(g)), c, sw, swc);
      var d := DensuAt(m, th, z, GasBoundary(m, g, t, e.value, sw), Mass(g), Alpha[OutputIndex(g)]).0;
      GasStage(m, g, th, t, k, c, z, b28, xmm, zhm, sw, swc)
        == (if d.Success? then Success(GasEvaluation(d.value, e.tables, e.cache)) else Failure(d.error))
  {
    var e := Globe7Call(m, t, k, Pd(DensityRow(g)), c, sw, swc);
    var rc := RecipeOf(m, g, t, c, z, sw);
    var db := GasBoundary(m, g, t, e.value, sw);
    UnmixedIsDiffusive(m, th, z, db, b28, xmm, zhm, rc);
  }

  // --------------------------------------------------- anomalous oxygen

  /** Anomalous oxygen's density at the lower boundary, given the total
      `g` of `globe7` on `pd[8]`. */
  function HotOxygenBoundary(m: Math, t: Tables, g: real, sw: seq<real>): real
    requires TablesShape(t) && |sw| == 24
  {
    BaseDensity(m, t.pdm[7][0], sw[21] * g, t.pd[8][0])
  }

  /** `tho`: the temperature of anomalous oxygen's profile. */
  function HotOxygenTemperature(t: Tables): real
    requires TablesShape(t)
  {
    t.pdm[7][9] * t.pdl[0][6]
  }

  /** The anomalous-oxygen stage: `globe7` on `pd[8]`, then its density on
      its own profile. */
  function HotOxygenStage(m: Math, th: Thermosphere, t: Tables, k: HarmonicCache, c: Conditions, z: real,
                          sw: seq<real>, swc: seq<real>): (r: Result<GasEvaluation>)
    requires Fits(th) && TablesShape(t) && CacheShape(k) && |sw| == 24 && |swc| == 24 && |c.apA| == 7
    ensures r.Failure? ==> r.error == MathmaticalError
    ensures r.Success? ==> TablesShape(r.value.tables) && CacheShape(r.value.cache)
    ensures r.Success? ==> ReadOnlyKept(r.value.tables, t) && LowerRowsKept(r.value.tables, t)
  {
    var e := Globe7Call(m, t, k, Pd(8), c, sw, swc);
    var d := AnomalousOxygen(m, th, z, HotOxygenBoundary(m, t, e.value, sw), HotOxygenTemperature(t), Alpha[8],
                             t.pdm[7][5], t.pdm[7][4]);
    if d.Failure? then Failure(d.error) else Success(GasEvaluation(d.value, e.tables, e.cache))
  }

  // ---------------------------------------------------------- the chain

  /** The order of the gases after N2. */
  const GasOrder: seq<Gas> := [Helium, Oxygen, MolecularOxygen, Argon, Hydrogen, Nitrogen]

  /** The densities of a run of gases, and the tables and cache left. */
  datatype ChainEvaluation = ChainEvaluation(densities: seq<real>, tables: Tables, cache: HarmonicCache)

  /** The gases `gs` evaluated in order, each `globe7` call seeing the tables
      and cache the previous one left; the first failure stops the run. */
  function GasChain(m: Math, gs: seq<Gas>, th: Thermosphere, t: Tables, k: HarmonicCache, c: Conditions, z: real,
                    b28: real, xmm: real, zhm: real, sw: seq<real>, swc: seq<real>): (r: Result<ChainEvaluation>)
    requires Fits(th) && TablesShape(t) && CacheShape(k) && |sw| == 24 && |swc| == 24 && |c.apA| == 7
    ensures r.Success? ==> |r.value.densities| == |gs| && TablesShape(r.value.tables) && CacheShape(r.value.cache)
    decreases |gs|
  {
    if gs == [] then Success(ChainEvaluation([], t, k))
    else
      var e := GasStage(m, gs[0], th, t, k, c, z, b28, xmm, zhm, sw, swc);
      if e.Failure? then Failure(e.error)
      else
        var rest := GasChain(m, gs[1..], th, e.value.tables, e.value.cache, c, z, b28, xmm, zhm, sw, swc);
        if rest.Failure? then Failure(rest.error)
        else Success(ChainEvaluation([e.value.density] + rest.value.densities, rest.value.tables, rest.value.cache))
  }

  /** A run of gases fails only on arithmetic (in `densu`). */
  lemma {:induction false} GasChainFailsOnArithmetic(m: Math, gs: seq<Gas>, th: Thermosphere, t: Tables, k: HarmonicCache,
                                                     c: Conditions, z: real, b28: real, xmm: real, zhm: real,
                                                     sw: seq<real>, swc: seq<real>)
    requires Fits(th) && TablesShape(t) && CacheShape(k) && |sw| == 24 && |swc| == 24 && |c.apA| == 7
    ensures var r := GasChain(m, gs, th, t, k, c, z, b28, xmm, zhm, sw, swc);
      r.Failure? ==> r.error == MathmaticalError
    decreases |gs|
  {
    if gs != [] {
      var e := GasStage(m, gs[0], th, t, k, c, z, b28, xmm, zhm, sw, swc);
      if e.Success? {
        GasChainFailsOnArithmetic(m, gs[1..], th, e.value.tables, e.value.cache, c, z, b28, xmm, zhm, sw, swc);
      }
    }
  }

  // ------------------------------------------------------------ outputs

  /** The nine densities in output order (He, O, N2, O2, Ar, mass, H, N,
      anomalous O) from N2's, the chain's (in `GasOrder`) and anomalous
      oxygen's, with the total mass density in `d[5]`. */
  function Densities(n2: real, gases: seq<real>, hot: real): (d: seq<real>)
    requires |gases| == |GasOrder|
    ensures |d| == 9 && MassConsistent(d, false)
    ensures d[2] == n2 && d[8] == hot
    ensures forall i :: 0 <= i < |GasOrder| ==> d[OutputIndex(GasOrder[i])] == gases[i]
  {
    var d := [gases[0], gases[1], n2, gases[2], gases[3], 0.0, gases[4], gases[5], hot];
    d[5 := MassDensity(d)]
  }

  /** The unit switch: with `sw[0]` on the densities are converted to m^-3
      and kg/m^3. */
  function InUnits(d: seq<real>, metric: bool): (r: seq<real>)
    requires |d| == 9 && MassConsistent(d, false)
    ensures |r| == 9 && MassConsistent(r, metric)
    ensures !metric ==> r == d
    ensures metric ==> forall i :: 0 <= i < 9 && i != 5 ==> r[i] == d[i] * 1.0e6
  {
    if metric then ToMetricKeepsMassIdentity(d); ToMetric(d) else d
  }

  // --------------------------------------------------------------- gts7

  /** The profile stage: the exosphere, then the lower-thermosphere nodes,
      combined into the profile every `densu` call shares. */
  datatype ProfileEvaluation = ProfileEvaluation(th: Thermosphere, tables: Tables, cache: HarmonicCache)

  function ProfileStage(m: Math, gsurf: real, re: real, t: Tables, k: HarmonicCache, c: Conditions, alt: real,
                        sw: seq<real>, swc: seq<real>): (r: Result<ProfileEvaluation>)
    requires TablesShape(t) && CacheShape(k) && |sw| == 24 && |swc| == 24 && |c.apA| == 7
    ensures r.Failure? ==> r.error == InvalidValue && alt < NodeVariationTop
    ensures r.Success? ==> Fits(r.value.th) && r.value.th.zn1 == JoiningHeights(t.pdl[1][15])
    ensures r.Success? ==> TablesShape(r.value.tables) && CacheShape(r.value.cache) && ReadOnlyKept(r.value.tables, t)
    ensures r.Success? && alt <= t.pdl[1][15] ==> r.value.th.tinf == AverageExosphericTemperature(t)
  {
    var x := ExosphereStage(m, t, k, c, alt, sw, swc);
    assert alt <= t.pdl[1][15] ==> x.ex.tinf == AverageExosphericTemperature(t) by {
      if alt <= t.pdl[1][15] {
        ExosphereBelowJoin(m, t, k, c, alt, sw, swc);
      }
    }
    var n := NodeStage(m, x.tables, x.cache, c, alt, sw, swc);
    if n.Failure? then Failure(n.error)
    else Success(ProfileEvaluation(ProfileOf(gsurf, re, t, x.ex, n.value), n.value.tables, x.cache))
  }

  /** The species stage: N2, then the other gases in `GasOrder`, then
      anomalous oxygen, giving the nine densities (in cm^-3, with the mass
      density in g/cm^3) and the N2 mixed density the engine keeps, which
      changes only when N2 is mixed. */
  datatype SpeciesEvaluation = SpeciesEvaluation(d: seq<real>, dm28: real, tables: Tables, cache: HarmonicCache)

  function SpeciesStage(m: Math, th: Thermosphere, t: Tables, k: HarmonicCache, c: Conditions, z: real, dm28: real,
                        sw: seq<real>, swc: seq<real>): (r: Result<SpeciesEvaluation>)
    requires Fits(th) && TablesShape(t) && CacheShape(k) && |sw| == 24 && |swc| == 24 && |c.apA| == 7
    ensures r.Failure? ==> r.error == MathmaticalError
    ensures r.Success? ==> |r.value.d| == 9 && MassConsistent(r.value.d, false)
    ensures r.Success? ==> TablesShape(r.value.tables) && CacheShape(r.value.cache)
    ensures r.Success? && !(sw[15] != 0.0 && z <= Ceiling[2]) ==> r.value.dm28 == dm28
  {
    var n2 := NitrogenStage(m, th, t, k, c, z, sw, swc);
    if n2.Failure? then Failure(n2.error) else
    var zhm28 := MixingScale(t);
    var gases := GasChain(m, GasOrder, th, n2.value.tables, n2.value.cache, c, z, n2.value.b28, t.pdm[2][4], zhm28, sw, swc);
    GasChainFailsOnArithmetic(m, GasOrder, th, n2.value.tables, n2.value.cache, c, z, n2.value.b28, t.pdm[2][4], zhm28, sw, swc);
    if gases.Failure? then Failure(gases.error) else
    var hot := HotOxygenStage(m, th, gases.value.tables, gases.value.cache, c, z, sw, swc);
    if hot.Failure? then Failure(hot.error) else
    Success(SpeciesEvaluation(Densities(n2.value.outcome.density, gases.value.densities, hot.value.density),
                              if n2.value.outcome.Mixed? then n2.value.outcome.mix.dm else dm28,
                              hot.value.tables, hot.value.cache))
  }

  /** What `gts7` produces: the densities `d`, the exospheric temperature
      `t[0]` and the temperature at the altitude `t[1]`, the N2 mixed
      density the engine keeps, the profile (whose nodes the engine's node
      arrays hold afterwards), and the tables and cache it leaves. */
  datatype Gts7Evaluation = Gts7Evaluation(d: seq<real>, t: seq<real>, dm28: real, th: Thermosphere,
                                           tables: Tables, cache: HarmonicCache)

  /** `|alt|`, as `gts7` computes it: the root of its square. */
  function Magnitude(m: Math, alt: real): real
  {
    m.sqrt(alt * alt)
  }

  /** The last steps of `gts7`: the temperature at the altitude (a `densu`
      call at `|alt|` with zero mass), then the unit switch. */
  function Gts7Outcome(m: Math, th: Thermosphere, sp: SpeciesEvaluation, alt: real, metric: bool): (r: Result<Gts7Evaluation>)
    requires Fits(th) && |sp.d| == 9 && MassConsistent(sp.d, false)
    ensures r.Failure? ==> r.error == MathmaticalError
    ensures r.Success? ==> |r.value.d| == 9 && MassConsistent(r.value.d, metric) && |r.value.t| == 2
    ensures r.Success? ==> r.value.t[0] == th.tinf && r.value.th == th && r.value.dm28 == sp.dm28
    ensures r.Success? ==> r.value.tables == sp.tables && r.value.cache == sp.cache
    ensures r.Success? && Magnitude(m, alt) >= th.zn1[0] ==>
      r.value.t[1] == BatesTemperature(m, th.tinf, th.tlb, th.s2, Zeta(m, th.re, Magnitude(m, alt), th.zlb))
  {
    var temperature := DensuAt(m, th, Magnitude(m, alt), 1.0, 0.0, 0.0);
    if temperature.0.Failure? then Failure(temperature.0.error)
    else Success(Gts7Evaluation(InUnits(sp.d, metric), [th.tinf, temperature.1], sp.dm28, th, sp.tables, sp.cache))
  }

  /** `gts7` at altitude `alt` given the engine's state. A refused
      `glob7s` tag (only consulted below 300 km) fails with `InvalidValue`,
      `densu` with `MathmaticalError`. On success the densities keep the
      mass identity in the units `sw[0]` selects; `t[0]` is the exospheric
      temperature, its average below the joining altitude; `t[1]` is the
      Bates temperature at `|alt|` when that is above the joining
      altitude; and the N2 mixed density is kept unless N2 is mixed. */
  function Gts7Spec(m: Math, gsurf: real, re: real, t: Tables, k: HarmonicCache, dm28: real, c: Conditions, alt: real,
                    sw: seq<real>, swc: seq<real>): (r: Result<Gts7Evaluation>)
    requires TablesShape(t) && CacheShape(k) && |sw| == 24 && |swc| == 24 && |c.apA| == 7
    ensures r.Success? ==> |r.value.d| == 9 && MassConsistent(r.value.d, sw[0] != 0.0) && |r.value.t| == 2
    ensures r.Success? ==> r.value.t[0] == r.value.th.tinf && Fits(r.value.th) && r.value.th.zn1 == JoiningHeights(t.pdl[1][15])
    ensures r.Success? ==> TablesShape(r.value.tables) && CacheShape(r.value.cache)
    ensures r.Success? && alt <= t.pdl[1][15] ==> r.value.t[0] == AverageExosphericTemperature(t)
    ensures r.Success? && Magnitude(m, alt) >= t.pdl[1][15] ==>
      var th := r.value.th;
      r.value.t[1] == BatesTemperature(m, th.tinf, th.tlb, th.s2, Zeta(m, th.re, Magnitude(m, alt), th.zlb))
    ensures r.Success? && !(sw[15] != 0.0 && alt <= Ceiling[2]) ==> r.value.dm28 == dm28
    ensures r.Failure? ==> r.error == MathmaticalError || (r.error == InvalidValue && alt < NodeVariationTop)
  {
    var p := ProfileStage(m, gsurf, re, t, k, c, alt, sw, swc);
    if p.Failure? then Failure(p.error) else
    var sp := SpeciesStage(m, p.value.th, p.value.tables, p.value.cache, c, alt, dm28, sw, swc);
    if sp.Failure? then Failure(sp.error) else
    Gts7Outcome(m, p.value.th, sp.value, alt, sw[0] != 0.0)
  }
}
