/** The evaluations the engine offers, as functions of its state: `gtd7`
    (the whole atmosphere), `gtd7d` (the same, with anomalous oxygen in the
    mass density) and `ghp7` (the altitude of a pressure level, found by
    iterating `gtd7`).

    The engine's state is what one evaluation leaves for the next: gravity
    and effective radius, the N2 mixed density `dm28`, the coefficient
    tables, the harmonic cache, and the node arrays of the mesosphere and
    stratosphere profiles. The thermosphere's node arrays are not part of
    it: every evaluation rewrites the nodes it reads before reading them. */
module MsisDriver {
  import opened Numerics
  import opened MsisFunctions
  import opened MsisProfiles
  import opened MsisHarmonics
  import opened MsisSpecies
  import opened MsisTables
  import opened MsisThermosphere
  import opened MsisMesosphere

  // ------------------------------------------------------------ switches

  /** The weights `sw` that `tselec` derives from the switch settings. */
  function SwitchWeights(switches: seq<int>): (sw: seq<real>)
    requires |switches| == 24
    ensures |sw| == 24 && forall i :: 0 <= i < 24 ==> sw[i] == SwWeight(i, switches[i])
  {
    seq(24, i requires 0 <= i < 24 => SwWeight(i, switches[i]))
  }

  /** The weights `swc` that `tselec` derives from the switch settings. */
  function CrossWeights(switches: seq<int>): (swc: seq<real>)
    requires |switches| == 24
    ensures |swc| == 24 && forall i :: 0 <= i < 24 ==> swc[i] == SwcWeight(i, switches[i])
  {
    seq(24, i requires 0 <= i < 24 => SwcWeight(i, switches[i]))
  }

  /** Whether the output is in metric units: switch 0 set to 1. */
  predicate Metric(switches: seq<int>)
    requires |switches| == 24
  {
    switches[0] == 1
  }

  /** The unit switch weight is on exactly when the output is metric. */
  lemma MetricWeight(switches: seq<int>)
    requires |switches| == 24
    ensures SwitchWeights(switches)[0] != 0.0 <==> Metric(switches)
  {
  }

  // ---------------------------------------------------------- the state

  /** The engine's state between evaluations. */
  datatype Engine = Engine(gsurf: real, re: real, dm28: real, tables: Tables, cache: HarmonicCache,
                           tn2: seq<real>, tgn2: seq<real>, tn3: seq<real>, tgn3: seq<real>)

  predicate EngineShape(e: Engine)
  {
    TablesShape(e.tables) && CacheShape(e.cache) && |e.tn2| == 4 && |e.tgn2| == 2 && |e.tn3| == 5 && |e.tgn3| == 2
  }

  /** What `gtd7` produces: densities `d` and temperatures `t`, the state it
      leaves, and the thermosphere profile it evaluated (whose nodes the
      engine's thermosphere node arrays hold afterwards). */
  datatype Gtd7Evaluation = Gtd7Evaluation(d: seq<real>, t: seq<real>, engine: Engine, th: Thermosphere)

  // ------------------------------------------------------------- gtd7

  /** What `gtd7` computes below 72.5 km: the densities, the temperature
      at the altitude, and the state it leaves. */
  datatype LowerOutcome = LowerOutcome(d: seq<real>, tz: real, engine: Engine)

  /** `gtd7` below 72.5 km, after `gts7` at 72.5 km has left the state `e`,
      the profile `th` and the densities `sd`: the mesosphere nodes
      (joining the thermosphere's lowest node), the stratosphere nodes,
      then the densities from the mixed N2 density `dm28` (in the output's
      units) and the temperature at `alt`. */
  function LowerAtmosphere(m: Math, e: Engine, th: Thermosphere, sd: seq<real>, c: Conditions, alt: real,
                           sw: seq<real>, swc: seq<real>): (r: Result<LowerOutcome>)
    requires EngineShape(e) && Fits(th) && |th.tnLow| == 4 && |sd| == 9
    requires |sw| == 24 && |swc| == 24 && alt < MesosphereTop
    ensures r.Failure? ==> r.error == InvalidValue || r.error == MathmaticalError
    ensures r.Success? ==> |r.value.d| == 9 && MassConsistent(r.value.d, sw[0] != 0.0) && EngineShape(r.value.engine)
    ensures r.Success? ==> r.value.d[1] == 0.0 && r.value.d[6] == 0.0 && r.value.d[7] == 0.0 && r.value.d[8] == 0.0
    ensures r.Success? && alt <= FullMixingAltitude ==> FullyMixed(r.value.d, r.value.engine.tables)
    ensures r.Success? ==> r.value.engine.tn2[0] == th.tnLow[3] && r.value.engine.tgn2[0] == th.tgnLow
    ensures r.Success? ==> r.value.engine.tn3[0] == r.value.engine.tn2[3]
  {
    var nodes := LowerNodes(m, e.tables, e.cache, c, alt, sw, swc, th.tnLow[3], th.tgnLow, e.tn3, e.tgn3);
    if nodes.Failure? then Failure(nodes.error) else
    LowerFromNodes(m, e, alt, sd, sw[0] != 0.0, nodes.value.0, nodes.value.1)
  }

  /** The mixed N2 density `dm28`, kept in cm^-3 by `gts7`, in the output's
      units: per m^3 when `metric`. */
  function MixedInUnits(dm28: real, metric: bool): real
  {
    if metric then dm28 * 1.0e6 else dm28
  }

  /** The densities and temperature below 72.5 km from the mesosphere
      nodes `meso` and stratosphere nodes `strato`, with `dm28` scaled to
      the output's units, and the state holding the new tables and nodes. */
  function LowerFromNodes(m: Math, e: Engine, alt: real, sd: seq<real>, metric: bool, meso: Nodes, strato: Nodes)
    : (r: Result<LowerOutcome>)
    requires EngineShape(e) && TablesShape(strato.tables) && |sd| == 9 && alt < MesosphereTop
    requires |meso.tn| == 4 && |meso.tgn| == 2 && |strato.tn| == 5 && |strato.tgn| == 2
    ensures r.Failure? ==> r.error == MathmaticalError
    ensures r.Success? ==> |r.value.d| == 9 && MassConsistent(r.value.d, metric) && EngineShape(r.value.engine)
    ensures r.Success? ==> r.value.engine.tables == strato.tables && r.value.engine.tn2 == meso.tn && r.value.engine.tn3 == strato.tn
  {
    var lower := LowerDensities(m, e.gsurf, e.re, alt, sd, MixedInUnits(e.dm28, metric), strato.tables, meso, strato, metric);
    if lower.Failure? then Failure(lower.error) else
    Success(LowerOutcome(lower.value.0, lower.value.1,
                         e.(tables := strato.tables, tn2 := meso.tn, tgn2 := meso.tgn, tn3 := strato.tn, tgn3 := strato.tgn)))
  }

  /** The mesosphere nodes below the thermosphere's lowest node `top`
      (with gradient `topGradient`), then the stratosphere nodes below
      them; `tn3` and `tgn3` are the stratosphere nodes left by the last
      evaluation, kept above 32.5 km. */
  function LowerNodes(m: Math, t: Tables, k: HarmonicCache, c: Conditions, alt: real, sw: seq<real>, swc: seq<real>,
                      top: real, topGradient: real, tn3: seq<real>, tgn3: seq<real>): (r: Result<(Nodes, Nodes)>)
    requires TablesShape(t) && CacheShape(k) && |sw| == 24 && |swc| == 24 && |tn3| == 5 && |tgn3| == 2
    ensures r.Failure? ==> r.error == InvalidValue
    ensures r.Success? ==> |r.value.0.tn| == 4 && |r.value.0.tgn| == 2 && |r.value.1.tn| == 5 && |r.value.1.tgn| == 2
    ensures r.Success? ==> TablesShape(r.value.1.tables)
    ensures r.Success? ==> r.value.0.tn[0] == top && r.value.0.tgn[0] == topGradient && r.value.1.tn[0] == r.value.0.tn[3]
  {
    var meso := MesosphereNodes(m, t, k, c, sw, swc, top, topGradient);
    if meso.Failure? then Failure(meso.error) else
    var strato := StratosphereNodes(m, k, c, alt, sw, swc, meso.value, tn3, tgn3);
    if strato.Failure? then Failure(strato.error) else
    Success((meso.value, strato.value))
  }

  /** `gtd7` at altitude `alt` with the switch settings `switches`: gravity
      at the latitude (45 degrees when switch 2 is off), then the
      evaluation at the altitude. */
  function Gtd7Spec(m: Math, e: Engine, c: Conditions, alt: real, switches: seq<int>): (r: Result<Gtd7Evaluation>)
    requires EngineShape(e) && |c.apA| == 7 && |switches| == 24
    ensures r.Failure? ==> r.error == InvalidValue || r.error == MathmaticalError
    ensures r.Success? ==> |r.value.d| == 9 && MassConsistent(r.value.d, Metric(switches)) && |r.value.t| == 2
    ensures r.Success? ==> EngineShape(r.value.engine) && Fits(r.value.th) && |r.value.th.tnLow| == 4
    ensures r.Success? ==> r.value.t[0] == r.value.th.tinf
    ensures r.Success? && alt < MesosphereTop ==>
      r.value.d[1] == 0.0 && r.value.d[6] == 0.0 && r.value.d[7] == 0.0 && r.value.d[8] == 0.0
    ensures r.Success? && alt <= FullMixingAltitude ==> FullyMixed(r.value.d, r.value.engine.tables)
    ensures r.Success? && alt < MesosphereTop ==>
      r.value.engine.tn2[0] == r.value.th.tnLow[3] && r.value.engine.tgn2[0] == r.value.th.tgnLow
  {
    var sw := SwitchWeights(switches);
    MetricWeight(switches);
    var g := Glatf(m, if sw[2] == 0.0 then 45.0 else c.gLat);
    Gtd7At(m, e.(gsurf := g.0, re := g.1), c, alt, sw, CrossWeights(switches))
  }

  /** `gtd7` once gravity and radius are set: `gts7` at the altitude or at
      72.5 km if lower, and below 72.5 km the lower atmosphere joined to
      the thermosphere's lowest node. */
  function Gtd7At(m: Math, e: Engine, c: Conditions, alt: real, sw: seq<real>, swc: seq<real>): (r: Result<Gtd7Evaluation>)
    requires EngineShape(e) && |c.apA| == 7 && |sw| == 24 && |swc| == 24
    ensures r.Failure? ==> r.error == InvalidValue || r.error == MathmaticalError
    ensures r.Success? ==> |r.value.d| == 9 && MassConsistent(r.value.d, sw[0] != 0.0) && |r.value.t| == 2
    ensures r.Success? ==> EngineShape(r.value.engine) && Fits(r.value.th) && |r.value.th.tnLow| == 4
    ensures r.Success? ==> r.value.t[0] == r.value.th.tinf
    ensures r.Success? && alt < MesosphereTop ==>
      r.value.d[1] == 0.0 && r.value.d[6] == 0.0 && r.value.d[7] == 0.0 && r.value.d[8] == 0.0
    ensures r.Success? && alt <= FullMixingAltitude ==> FullyMixed(r.value.d, r.value.engine.tables)
    ensures r.Success? && alt < MesosphereTop ==>
      r.value.engine.tn2[0] == r.value.th.tnLow[3] && r.value.engine.tgn2[0] == r.value.th.tgnLow
  {
    var up := Gts7Spec(m, e.gsurf, e.re, e.tables, e.cache, e.dm28, c, Max(alt, MesosphereTop), sw, swc);
    if up.Failure? then Failure(up.error) else
    var u := up.value;
    Gtd7Below(m, e.(dm28 := u.dm28, tables := u.tables, cache := u.cache), u, c, alt, sw, swc)
  }

  /** `Gtd7At` is `gts7` at the altitude (at least 72.5 km) followed by
      `Gtd7Below`. */
  lemma Gtd7AtSteps(m: Math, e: Engine, c: Conditions, alt: real, sw: seq<real>, swc: seq<real>)
    requires EngineShape(e) && |c.apA| == 7 && |sw| == 24 && |swc| == 24
    ensures var s := Gts7Spec(m, e.gsurf, e.re, e.tables, e.cache, e.dm28, c, Max(alt, MesosphereTop), sw, swc);
      Gtd7At(m, e, c, alt, sw, swc)
        == if s.Failure? then Failure(s.error)
           else Gtd7Below(m, e.(dm28 := s.value.dm28, tables := s.value.tables, cache := s.value.cache), s.value, c, alt, sw, swc)
  {
  }

  /** `gtd7` after `gts7` has produced `u` and left the state `e`: `u`
      itself at or above 72.5 km, and below it the lower atmosphere with
      the exospheric temperature of `u`. */
  function Gtd7Below(m: Math, e: Engine, u: Gts7Evaluation, c: Conditions, alt: real, sw: seq<real>, swc: seq<real>)
    : (r: Result<Gtd7Evaluation>)
    requires EngineShape(e) && |sw| == 24 && |swc| == 24
    requires |u.d| == 9 && MassConsistent(u.d, sw[0] != 0.0) && |u.t| == 2 && u.t[0] == u.th.tinf
    requires Fits(u.th) && |u.th.tnLow| == 4
    ensures r.Failure? ==> r.error == InvalidValue || r.error == MathmaticalError
    ensures r.Success? ==> |r.value.d| == 9 && MassConsistent(r.value.d, sw[0] != 0.0) && |r.value.t| == 2
    ensures r.Success? ==> EngineShape(r.value.engine) && r.value.th == u.th && r.value.t[0] == u.th.tinf
    ensures alt >= MesosphereTop ==> r.Success? && r.value.d == u.d && r.value.t == u.t && r.value.engine == e
    ensures r.Success? && alt < MesosphereTop ==>
      r.value.d[1] == 0.0 && r.value.d[6] == 0.0 && r.value.d[7] == 0.0 && r.value.d[8] == 0.0
    ensures r.Success? && alt <= FullMixingAltitude ==> FullyMixed(r.value.d, r.value.engine.tables)
    ensures r.Success? && alt < MesosphereTop ==>
      r.value.engine.tn2[0] == u.th.tnLow[3] && r.value.engine.tgn2[0] == u.th.tgnLow
  {
    if alt >= MesosphereTop then Success(Gtd7Evaluation(u.d, u.t, e, u.th))
    else
    var lower := LowerAtmosphere(m, e, u.th, u.d, c, alt, sw, swc);
    if lower.Failure? then Failure(lower.error)
    else Success(Gtd7Evaluation(lower.value.d, [u.t[0], lower.value.tz], lower.value.engine, u.th))
  }

  /** At or above 72.5 km `gtd7` is `gts7` at the altitude, with gravity
      set first: it fails exactly when `gts7` does, with the same error,
      and otherwise reports `gts7`'s densities and temperatures and keeps
      the state `gts7` leaves. */
  lemma Gtd7AboveIsGts7(m: Math, e: Engine, c: Conditions, alt: real, switches: seq<int>)
    requires EngineShape(e) && |c.apA| == 7 && |switches| == 24 && alt >= MesosphereTop
    ensures var sw := SwitchWeights(switches);
      var g := Glatf(m, if sw[2] == 0.0 then 45.0 else c.gLat);
      var s := Gts7Spec(m, g.0, g.1, e.tables, e.cache, e.dm28, c, alt, sw, CrossWeights(switches));
      var r := Gtd7Spec(m, e, c, alt, switches);
      && (r.Failure? <==> s.Failure?)
      && (s.Failure? ==> r.error == s.error)
      && (s.Success? ==>
            && r.value.d == s.value.d && r.value.t == s.value.t && r.value.th == s.value.th
            && r.value.engine == e.(gsurf := g.0, re := g.1, dm28 := s.value.dm28, tables := s.value.tables, cache := s.value.cache))
  {
    var sw := SwitchWeights(switches);
    var g := Glatf(m, if sw[2] == 0.0 then 45.0 else c.gLat);
    assert Max(alt, MesosphereTop) == alt;
    Gtd7AtSteps(m, e.(gsurf := g.0, re := g.1), c, alt, sw, CrossWeights(switches));
  }

  // ------------------------------------------------------------ gtd7d

  /** The mass identity of `gtd7d`: `d[5]` is the weighted sum of all nine
      species including anomalous oxygen, divided by 1000 in metric
      units. */
  predicate CountsAnomalousOxygen(d: seq<real>, metric: bool)
    requires |d| == 9
  {
    d[5] == (if metric then MassDensityWithAnomalousOxygen(d) / 1000.0 else MassDensityWithAnomalousOxygen(d))
  }

  /** `d` with `d[5]` replaced by the mass density that counts anomalous
      oxygen, in the units `metric` selects. */
  function WithAnomalousOxygenMass(d: seq<real>, metric: bool): (r: seq<real>)
    requires |d| == 9
    ensures |r| == 9 && forall i :: 0 <= i < 9 && i != 5 ==> r[i] == d[i]
    ensures CountsAnomalousOxygen(r, metric)
  {
    var total := MassDensityWithAnomalousOxygen(d);
    d[5 := if metric then total / 1000.0 else total]
  }

  /** `gtd7d`: `gtd7` with the mass density `d[5]` recomputed to count
      anomalous oxygen, in the units switch 0 selects. */
  function Gtd7dSpec(m: Math, e: Engine, c: Conditions, alt: real, switches: seq<int>): (r: Result<Gtd7Evaluation>)
    requires EngineShape(e) && |c.apA| == 7 && |switches| == 24
    ensures r.Failure? ==> r.error == InvalidValue || r.error == MathmaticalError
    ensures r.Success? ==> |r.value.d| == 9 && |r.value.t| == 2
    ensures r.Success? ==> CountsAnomalousOxygen(r.value.d, Metric(switches))
    ensures var g := Gtd7Spec(m, e, c, alt, switches);
      && (r.Failure? <==> g.Failure?)
      && (g.Failure? ==> r.error == g.error)
      && (g.Success? ==>
            && r.value.t == g.value.t && r.value.engine == g.value.engine && r.value.th == g.value.th
            && forall i :: 0 <= i < 9 && i != 5 ==> r.value.d[i] == g.value.d[i])
  {
    var g := Gtd7Spec(m, e, c, alt, switches);
    if g.Failure? then g else Success(g.value.(d := WithAnomalousOxygenMass(g.value.d, Metric(switches))))
  }

  // ------------------------------------------------------------- ghp7

  /** `ghp7`'s convergence test on log10 pressure (`test`). */
  const PressureTolerance: real := 0.00043

  /** `ghp7`'s limit on the number of `gtd7` evaluations (`ltest`). */
  const IterationLimit: nat := 12

  /** The log10-pressure error `pl - log10(p)` of an evaluation, where `p`
      is the pressure `bm * xn * T` of its densities and temperature. */
  function PressureError(m: Math, pl: real, d: seq<real>, t: seq<real>, metric: bool): real
    requires |d| == 9 && |t| == 2
  {
    pl - m.log10(Pressure(d, t[1], metric))
  }

  /** An evaluation is accepted when its log10-pressure error is below the
      tolerance (`sqrt(diff^2) < test`). */
  predicate Converged(m: Math, pl: real, g: Gtd7Evaluation, metric: bool)
    requires |g.d| == 9 && |g.t| == 2
  {
    Magnitude(m, PressureError(m, pl, g.d, g.t, metric)) < PressureTolerance
  }

  /** `ghp7` from its `l`-th evaluation on: `gtd7` at `z`; an accepted
      evaluation is the answer, with `z` its altitude; after the twelfth
      evaluation the search fails with `MathmaticalError`; otherwise the
      next altitude follows from the scale height at `z` and the error. */
  function Ghp7From(m: Math, e: Engine, c: Conditions, switches: seq<int>, pl: real, z: real, l: nat): (r: Result<(real, Gtd7Evaluation)>)
    requires EngineShape(e) && |c.apA| == 7 && |switches| == 24 && 1 <= l <= IterationLimit
    ensures r.Failure? ==> r.error == InvalidValue || r.error == MathmaticalError
    ensures r.Success? ==> |r.value.1.d| == 9 && |r.value.1.t| == 2 && EngineShape(r.value.1.engine)
    ensures r.Success? ==> MassConsistent(r.value.1.d, Metric(switches)) && Converged(m, pl, r.value.1, Metric(switches))
    decreases IterationLimit - l, 1
  {
    var g := Gtd7Spec(m, e, c, z, switches);
    if g.Failure? then Failure(g.error) else Ghp7After(m, c, switches, pl, z, l, g.value)
  }

  /** What the `l`-th pass does with the evaluation `v` at `z`: stop when
      the pressure matches, fail after the twelfth pass, and otherwise go
      on from the next altitude. */
  function Ghp7After(m: Math, c: Conditions, switches: seq<int>, pl: real, z: real, l: nat, v: Gtd7Evaluation): (r: Result<(real, Gtd7Evaluation)>)
    requires EngineShape(v.engine) && |c.apA| == 7 && |switches| == 24 && 1 <= l <= IterationLimit
    requires |v.d| == 9 && |v.t| == 2 && MassConsistent(v.d, Metric(switches))
    ensures r.Failure? ==> r.error == InvalidValue || r.error == MathmaticalError
    ensures r.Success? ==> |r.value.1.d| == 9 && |r.value.1.t| == 2 && EngineShape(r.value.1.engine)
    ensures r.Success? ==> MassConsistent(r.value.1.d, Metric(switches)) && Converged(m, pl, r.value.1, Metric(switches))
    decreases IterationLimit - l, 0
  {
    var metric := Metric(switches);
    if Converged(m, pl, v, metric) then Success((z, v))
    else if l == IterationLimit then Failure(MathmaticalError)
    else
      var diff := PressureError(m, pl, v.d, v.t, metric);
      var next := NextAltitude(m, v.engine.gsurf, v.engine.re, z, l, diff, v.t[1], MeanMass(m, v.d, metric));
      Ghp7From(m, v.engine, c, switches, pl, next, l + 1)
  }

  /** `Ghp7From` is `gtd7` at `z` followed by `Ghp7After`. */
  lemma Ghp7FromSteps(m: Math, e: Engine, c: Conditions, switches: seq<int>, pl: real, z: real, l: nat)
    requires EngineShape(e) && |c.apA| == 7 && |switches| == 24 && 1 <= l <= IterationLimit
    ensures var g := Gtd7Spec(m, e, c, z, switches);
      Ghp7From(m, e, c, switches, pl, z, l)
        == if g.Failure? then Failure(g.error) else Ghp7After(m, c, switches, pl, z, l, g.value)
  {
  }

  /** `ghp7` for pressure `press` (mb): the search from the first guess for
      log10 `press` at the latitude and day of year. */
  function Ghp7Spec(m: Math, e: Engine, c: Conditions, doy: int, switches: seq<int>, press: real): (r: Result<(real, Gtd7Evaluation)>)
    requires EngineShape(e) && |c.apA| == 7 && |switches| == 24
    ensures r.Failure? ==> r.error == InvalidValue || r.error == MathmaticalError
    ensures r.Success? ==> |r.value.1.d| == 9 && |r.value.1.t| == 2
    ensures r.Success? ==> Converged(m, m.log10(press), r.value.1, Metric(switches))
  {
    var pl := m.log10(press);
    Ghp7From(m, e, c, switches, pl, InitialAltitude(m, pl, c.gLat, doy), 1)
  }

  lemma Ghp7SpecSteps(m: Math, e: Engine, c: Conditions, doy: int, switches: seq<int>, press: real)
    requires EngineShape(e) && |c.apA| == 7 && |switches| == 24
    ensures Ghp7Spec(m, e, c, doy, switches, press)
      == Ghp7From(m, e, c, switches, m.log10(press), InitialAltitude(m, m.log10(press), c.gLat, doy), 1)
  {
  }

  /** What a pass does with its evaluation `v` at `z`: it answers with `v`
      when the pressure matches, gives up with `MathmaticalError` when
      the twelfth pass does not match, and otherwise searches on from the
      next altitude, one scale-height step away. */
  lemma Ghp7PassOutcome(m: Math, c: Conditions, switches: seq<int>, pl: real, z: real, l: nat, v: Gtd7Evaluation)
    requires EngineShape(v.engine) && |c.apA| == 7 && |switches| == 24 && 1 <= l <= IterationLimit
    requires |v.d| == 9 && |v.t| == 2 && MassConsistent(v.d, Metric(switches))
    ensures var r := Ghp7After(m, c, switches, pl, z, l, v);
      && (Converged(m, pl, v, Metric(switches)) ==> r == Success((z, v)))
      && (!Converged(m, pl, v, Metric(switches)) && l == IterationLimit ==> r == Failure(MathmaticalError))
      && (!Converged(m, pl, v, Metric(switches)) && l < IterationLimit ==>
            r == Ghp7From(m, v.engine, c, switches, pl, NextAltitude(m, v.engine.gsurf, v.engine.re, z, l,
                   PressureError(m, pl, v.d, v.t, Metric(switches)), v.t[1], MeanMass(m, v.d, Metric(switches))), l + 1))
  {
  }

  /** The `l`-th pass evaluates `gtd7` at `z`: its failure is the search's
      failure, a matching evaluation is the answer, and a twelfth pass
      that does not match ends the search with `MathmaticalError`. */
  lemma Ghp7PassAt(m: Math, e: Engine, c: Conditions, switches: seq<int>, pl: real, z: real, l: nat)
    requires EngineShape(e) && |c.apA| == 7 && |switches| == 24 && 1 <= l <= IterationLimit
    ensures var g := Gtd7Spec(m, e, c, z, switches);
      var r := Ghp7From(m, e, c, switches, pl, z, l);
      && (g.Failure? ==> r == Failure(g.error))
      && (g.Success? && Converged(m, pl, g.value, Metric(switches)) ==> r == Success((z, g.value)))
      && (g.Success? && !Converged(m, pl, g.value, Metric(switches)) && l == IterationLimit ==> r == Failure(MathmaticalError))
  {
    Ghp7FromSteps(m, e, c, switches, pl, z, l);
  }

  /** `ghp7` starts from the first altitude guess: a first evaluation that
      fails or matches the pressure decides the outcome. */
  lemma Ghp7FirstPass(m: Math, e: Engine, c: Conditions, doy: int, switches: seq<int>, press: real)
    requires EngineShape(e) && |c.apA| == 7 && |switches| == 24
    ensures var z := InitialAltitude(m, m.log10(press), c.gLat, doy);
      var g := Gtd7Spec(m, e, c, z, switches);
      var r := Ghp7Spec(m, e, c, doy, switches, press);
      && (g.Failure? ==> r == Failure(g.error))
      && (g.Success? && Converged(m, m.log10(press), g.value, Metric(switches)) ==> r == Success((z, g.value)))
  {
    Ghp7SpecSteps(m, e, c, doy, switches, press);
    Ghp7PassAt(m, e, c, switches, m.log10(press), InitialAltitude(m, m.log10(press), c.gLat, doy), 1);
  }

  /** Whether the search from the `l`-th pass on, at `z` with the state `e`,
      misses at every pass: each `gtd7` evaluation along the search's own
      path succeeds without matching the log10 pressure `pl`, through the
      twelfth pass. */
  ghost predicate MissesFrom(m: Math, e: Engine, c: Conditions, switches: seq<int>, pl: real, z: real, l: nat)
    requires EngineShape(e) && |c.apA| == 7 && |switches| == 24 && 1 <= l <= IterationLimit
    decreases IterationLimit - l
  {
    var g := Gtd7Spec(m, e, c, z, switches);
    var metric := Metric(switches);
    && g.Success?
    && !Converged(m, pl, g.value, metric)
    && (l < IterationLimit ==>
          var v := g.value;
          MissesFrom(m, v.engine, c, switches, pl, NextAltitude(m, v.engine.gsurf, v.engine.re, z, l, PressureError(m, pl, v.d, v.t, metric), v.t[1], MeanMass(m, v.d, metric)), l + 1))
  }

  /** Whether every `gtd7` evaluation the search from the `l`-th pass on
      makes succeeds, up to the pass that stops it. */
  ghost predicate EvaluatesFrom(m: Math, e: Engine, c: Conditions, switches: seq<int>, pl: real, z: real, l: nat)
    requires EngineShape(e) && |c.apA| == 7 && |switches| == 24 && 1 <= l <= IterationLimit
    decreases IterationLimit - l
  {
    var g := Gtd7Spec(m, e, c, z, switches);
    var metric := Metric(switches);
    && g.Success?
    && (!Converged(m, pl, g.value, metric) && l < IterationLimit ==>
          var v := g.value;
          EvaluatesFrom(m, v.engine, c, switches, pl, NextAltitude(m, v.engine.gsurf, v.engine.re, z, l, PressureError(m, pl, v.d, v.t, metric), v.t[1], MeanMass(m, v.d, metric)), l + 1))
  }

  /** `MissesFrom` unfolded one pass. */
  lemma MissesFromSteps(m: Math, e: Engine, c: Conditions, switches: seq<int>, pl: real, z: real, l: nat)
    requires EngineShape(e) && |c.apA| == 7 && |switches| == 24 && 1 <= l <= IterationLimit
    ensures var g := Gtd7Spec(m, e, c, z, switches); var metric := Metric(switches);
      MissesFrom(m, e, c, switches, pl, z, l) <==>
        (g.Success? && !Converged(m, pl, g.value, metric) &&
         (l < IterationLimit ==> var v := g.value; MissesFrom(m, v.engine, c, switches, pl, NextAltitude(m, v.engine.gsurf, v.engine.re, z, l, PressureError(m, pl, v.d, v.t, metric), v.t[1], MeanMass(m, v.d, metric)), l + 1)))
  {
  }

  /** `EvaluatesFrom` unfolded one pass. */
  lemma EvaluatesFromSteps(m: Math, e: Engine, c: Conditions, switches: seq<int>, pl: real, z: real, l: nat)
    requires EngineShape(e) && |c.apA| == 7 && |switches| == 24 && 1 <= l <= IterationLimit
    ensures var g := Gtd7Spec(m, e, c, z, switches); var metric := Metric(switches);
      EvaluatesFrom(m, e, c, switches, pl, z, l) <==>
        (g.Success? &&
         (!Converged(m, pl, g.value, metric) && l < IterationLimit ==>
            var v := g.value; EvaluatesFrom(m, v.engine, c, switches, pl, NextAltitude(m, v.engine.gsurf, v.engine.re, z, l, PressureError(m, pl, v.d, v.t, metric), v.t[1], MeanMass(m, v.d, metric)), l + 1)))
  {
  }

  /** A search that misses at every pass from the `l`-th on gives up with
      `MathmaticalError` after the twelfth. */
  lemma {:induction false} Ghp7FromGivesUp(m: Math, e: Engine, c: Conditions, switches: seq<int>, pl: real, z: real, l: nat)
    requires EngineShape(e) && |c.apA| == 7 && |switches| == 24 && 1 <= l <= IterationLimit
    requires MissesFrom(m, e, c, switches, pl, z, l)
    ensures Ghp7From(m, e, c, switches, pl, z, l) == Failure(MathmaticalError)
    decreases IterationLimit - l
  {
    hide Gtd7Spec, Ghp7From, Ghp7After, NextAltitude, Converged, MassConsistent, MissesFrom, EvaluatesFrom;
    var g := Gtd7Spec(m, e, c, z, switches);
    var metric := Metric(switches);
    MissesFromSteps(m, e, c, switches, pl, z, l);
    assert g.Success? && !Converged(m, pl, g.value, metric);
    Ghp7PassAt(m, e, c, switches, pl, z, l);
    if l < IterationLimit {
      var v := g.value;
      var next := NextAltitude(m, v.engine.gsurf, v.engine.re, z, l, PressureError(m, pl, v.d, v.t, metric), v.t[1], MeanMass(m, v.d, metric));
      assert MissesFrom(m, v.engine, c, switches, pl, next, l + 1);
      Ghp7FromSteps(m, e, c, switches, pl, z, l);
      Ghp7PassOutcome(m, c, switches, pl, z, l, v);
      Ghp7FromGivesUp(m, v.engine, c, switches, pl, next, l + 1);
    }
  }

  /** Conversely, a search whose `gtd7` evaluations all succeed and that
      gives up with `MathmaticalError` missed at every pass. */
  lemma {:induction false} Ghp7FromGivesUpOnlyByMissing(m: Math, e: Engine, c: Conditions, switches: seq<int>, pl: real, z: real, l: nat)
    requires EngineShape(e) && |c.apA| == 7 && |switches| == 24 && 1 <= l <= IterationLimit
    requires EvaluatesFrom(m, e, c, switches, pl, z, l)
    requires Ghp7From(m, e, c, switches, pl, z, l) == Failure(MathmaticalError)
    ensures MissesFrom(m, e, c, switches, pl, z, l)
    decreases IterationLimit - l
  {
    hide Gtd7Spec, Ghp7From, Ghp7After, NextAltitude, Converged, MassConsistent, MissesFrom, EvaluatesFrom;
    var g := Gtd7Spec(m, e, c, z, switches);
    var metric := Metric(switches);
    EvaluatesFromSteps(m, e, c, switches, pl, z, l);
    MissesFromSteps(m, e, c, switches, pl, z, l);
    assert g.Success?;
    Ghp7PassAt(m, e, c, switches, pl, z, l);
    assert !Converged(m, pl, g.value, metric);
    if l < IterationLimit {
      var v := g.value;
      var next := NextAltitude(m, v.engine.gsurf, v.engine.re, z, l, PressureError(m, pl, v.d, v.t, metric), v.t[1], MeanMass(m, v.d, metric));
      assert EvaluatesFrom(m, v.engine, c, switches, pl, next, l + 1);
      Ghp7FromSteps(m, e, c, switches, pl, z, l);
      Ghp7PassOutcome(m, c, switches, pl, z, l, v);
      Ghp7FromGivesUpOnlyByMissing(m, v.engine, c, switches, pl, next, l + 1);
    }
  }

  /** `ghp7` fails with `MathmaticalError` when its search, from the first
      altitude guess, misses at every pass: it gives up after the twelfth. */
  lemma Ghp7GivesUp(m: Math, e: Engine, c: Conditions, doy: int, switches: seq<int>, press: real)
    requires EngineShape(e) && |c.apA| == 7 && |switches| == 24
    requires MissesFrom(m, e, c, switches, m.log10(press), InitialAltitude(m, m.log10(press), c.gLat, doy), 1)
    ensures Ghp7Spec(m, e, c, doy, switches, press) == Failure(MathmaticalError)
  {
    hide Ghp7Spec, Ghp7From, Gtd7Spec, MissesFrom, EvaluatesFrom;
    Ghp7SpecSteps(m, e, c, doy, switches, press);
    Ghp7FromGivesUp(m, e, c, switches, m.log10(press), InitialAltitude(m, m.log10(press), c.gLat, doy), 1);
  }

  /** When every `gtd7` evaluation of its search succeeds, `ghp7` gives up
      with `MathmaticalError` only if the search missed at every pass. */
  lemma Ghp7GivesUpOnlyByMissing(m: Math, e: Engine, c: Conditions, doy: int, switches: seq<int>, press: real)
    requires EngineShape(e) && |c.apA| == 7 && |switches| == 24
    requires EvaluatesFrom(m, e, c, switches, m.log10(press), InitialAltitude(m, m.log10(press), c.gLat, doy), 1)
    requires Ghp7Spec(m, e, c, doy, switches, press) == Failure(MathmaticalError)
    ensures MissesFrom(m, e, c, switches, m.log10(press), InitialAltitude(m, m.log10(press), c.gLat, doy), 1)
  {
    hide Ghp7Spec, Ghp7From, Gtd7Spec, MissesFrom, EvaluatesFrom;
    Ghp7SpecSteps(m, e, c, doy, switches, press);
    Ghp7FromGivesUpOnlyByMissing(m, e, c, switches, m.log10(press), InitialAltitude(m, m.log10(press), c.gLat, doy), 1);
  }
}
