/** `gtd7` below 72.5 km: the mesosphere and stratosphere profiles and the
    densities carried down from the thermosphere at 72.5 km.

    Below 72.5 km the engine evaluates `gts7` at 72.5 km, then sets the
    node temperatures of two more temperature profiles with `glob7s`: the
    mesosphere (`tn2`, `tgn2`, heights 72.5 to 32.5 km), whose top node
    joins the lowest node of the thermosphere, and, below 32.5 km, the
    stratosphere and troposphere (`tn3`, `tgn3`, heights 32.5 to 0 km).
    N2 follows `densm` on these profiles from the mixed N2 density at 72.5
    km; He, O2 and Ar follow N2 in their ground mixing ratios; the diffusive
    departures seen at 72.5 km fade out linearly down to 62.5 km. */
module MsisMesosphere {
  import opened Numerics
  import opened MsisFunctions
  import opened MsisProfiles
  import opened MsisHarmonics
  import opened MsisTables
  import opened MsisThermosphere

  /** The spline heights of the mesosphere (`zn2`), in km. */
  const MesoHeights: seq<real> := [72.5, 55.0, 45.0, 32.5]

  /** The spline heights of the stratosphere and troposphere (`zn3`), in
      km. */
  const StratoHeights: seq<real> := [32.5, 20.0, 15.0, 10.0, 0.0]

  /** Bottom of the mesosphere profile (`zn3[0]`): below it the lower
      profile's nodes vary. */
  const StratosphereTop: real := 32.5

  /** The nodes of one profile: temperatures `tn` and the two end gradients
      `tgn`, with the tables the `glob7s` calls leave. */
  datatype Nodes = Nodes(tn: seq<real>, tgn: seq<real>, tables: Tables)

  /** `pma[2][0] * pavgm[2]`: the average of the mesosphere's bottom node. */
  function MesoBottomAverage(t: Tables): real
    requires TablesShape(t)
  {
    t.pma[2][0] * t.pavgm[2]
  }

  /** `pma[6][0] * pavgm[6]`: the average of the stratosphere's bottom
      node. */
  function StratoBottomAverage(t: Tables): real
    requires TablesShape(t)
  {
    t.pma[6][0] * t.pavgm[6]
  }

  /** The mesosphere nodes: the top node and its gradient come from the
      thermosphere's lowest node (`tn1[4]`, `tgn1[1]`); the next three
      temperatures and the bottom gradient vary with `glob7s` on
      `pma[0..2]` and `pma[9]`, in that order, and a refused tag stops the
      evaluation. */
  function MesosphereNodes(m: Math, t: Tables, k: HarmonicCache, c: Conditions, sw: seq<real>, swc: seq<real>,
                           top: real, topGradient: real): (r: Result<Nodes>)
    requires TablesShape(t) && CacheShape(k) && |sw| == 24 && |swc| == 24
    ensures r.Failure? ==> r.error == InvalidValue
    ensures r.Success? ==> |r.value.tn| == 4 && |r.value.tgn| == 2 && TablesShape(r.value.tables)
    ensures r.Success? ==> r.value.tn[0] == top && r.value.tgn[0] == topGradient
    ensures r.Success? ==> ReadOnlyKept(r.value.tables, t) && GlobeRowsKept(r.value.tables, t)
  {
    var e0 := Glob7sCall(m, t, k, Pma(0), c, sw, swc);
    if e0.value.Failure? then Failure(e0.value.error) else
    var e1 := Glob7sCall(m, e0.tables, k, Pma(1), c, sw, swc);
    if e1.value.Failure? then Failure(e1.value.error) else
    var e2 := Glob7sCall(m, e1.tables, k, Pma(2), c, sw, swc);
    if e2.value.Failure? then Failure(e2.value.error) else
    var e9 := Glob7sCall(m, e2.tables, k, Pma(9), c, sw, swc);
    if e9.value.Failure? then Failure(e9.value.error) else
    var tn3 := NodeTemperature(m, t.pma[2][0], t.pavgm[2], JointWeight(sw[20], sw[22]), e2.value.value);
    Success(Nodes(
      [top,
       NodeTemperature(m, t.pma[0][0], t.pavgm[0], sw[20], e0.value.value),
       NodeTemperature(m, t.pma[1][0], t.pavgm[1], sw[20], e1.value.value),
       tn3],
      [topGradient,
       NodeGradient(m, t.pavgm[8], t.pma[9][0], JointWeight(sw[20], sw[22]), e9.value.value, tn3, MesoBottomAverage(t))],
      e9.tables))
  }

  /** The first three varied stratosphere nodes, `tn3[1..3]`: `glob7s` on
      `pma[3..5]` in that order, each weighted by the switch of the lower
      atmosphere; a refused tag stops the evaluation. */
  function UpperStratoNodes(m: Math, t: Tables, k: HarmonicCache, c: Conditions, sw: seq<real>, swc: seq<real>): (r: Result<NodeRun>)
    requires TablesShape(t) && CacheShape(k) && |sw| == 24 && |swc| == 24
    ensures r.Success? ==> |r.value.tn| == 3 && TablesShape(r.value.tables)
    ensures r.Success? ==> ReadOnlyKept(r.value.tables, t) && GlobeRowsKept(r.value.tables, t)
    ensures r.Failure? ==> r.error == InvalidValue
  {
    var e3 := Glob7sCall(m, t, k, Pma(3), c, sw, swc);
    if e3.value.Failure? then Failure(e3.value.error) else
    var e4 := Glob7sCall(m, e3.tables, k, Pma(4), c, sw, swc);
    if e4.value.Failure? then Failure(e4.value.error) else
    var e5 := Glob7sCall(m, e4.tables, k, Pma(5), c, sw, swc);
    if e5.value.Failure? then Failure(e5.value.error) else
    Success(NodeRun(
      [NodeTemperature(m, t.pma[3][0], t.pavgm[3], sw[22], e3.value.value),
       NodeTemperature(m, t.pma[4][0], t.pavgm[4], sw[22], e4.value.value),
       NodeTemperature(m, t.pma[5][0], t.pavgm[5], sw[22], e5.value.value)],
      e5.tables))
  }

  /** The varied stratosphere nodes below 32.5 km: the top node joins the
      mesosphere's bottom node and the top gradient its bottom gradient;
      after the first three varied temperatures, the lowest node varies
      with `glob7s` on `pma[6]` and the bottom gradient with `glob7s` on
      `pma[7]`. */
  function VariedStratoNodes(m: Math, k: HarmonicCache, c: Conditions, sw: seq<real>, swc: seq<real>, meso: Nodes): (r: Result<Nodes>)
    requires TablesShape(meso.tables) && CacheShape(k) && |sw| == 24 && |swc| == 24
    requires |meso.tn| == 4 && |meso.tgn| == 2
    ensures r.Failure? ==> r.error == InvalidValue
    ensures r.Success? ==> |r.value.tn| == 5 && |r.value.tgn| == 2 && TablesShape(r.value.tables)
    ensures r.Success? ==> r.value.tn[0] == meso.tn[3] && r.value.tgn[0] == meso.tgn[1]
  {
    var t := meso.tables;
    var u := UpperStratoNodes(m, t, k, c, sw, swc);
    if u.Failure? then Failure(u.error) else
    var e6 := Glob7sCall(m, u.value.tables, k, Pma(6), c, sw, swc);
    if e6.value.Failure? then Failure(e6.value.error) else
    var e7 := Glob7sCall(m, e6.tables, k, Pma(7), c, sw, swc);
    if e7.value.Failure? then Failure(e7.value.error) else
    var tn4 := NodeTemperature(m, t.pma[6][0], t.pavgm[6], sw[22], e6.value.value);
    Success(Nodes([meso.tn[3]] + u.value.tn + [tn4],
                  [meso.tgn[1], NodeGradient(m, t.pma[7][0], t.pavgm[7], sw[22], e7.value.value, tn4, StratoBottomAverage(t))],
                  e7.tables))
  }

  /** The stratosphere nodes, given the engine's previous ones: the top
      node always joins the mesosphere's bottom node; below 32.5 km the
      nodes vary; at or above it the rest of the old nodes stay. */
  function StratosphereNodes(m: Math, k: HarmonicCache, c: Conditions, alt: real, sw: seq<real>, swc: seq<real>,
                             meso: Nodes, tn3: seq<real>, tgn3: seq<real>): (r: Result<Nodes>)
    requires TablesShape(meso.tables) && CacheShape(k) && |sw| == 24 && |swc| == 24
    requires |meso.tn| == 4 && |meso.tgn| == 2 && |tn3| == 5 && |tgn3| == 2
    ensures r.Failure? ==> r.error == InvalidValue && alt < StratosphereTop
    ensures r.Success? ==> |r.value.tn| == 5 && |r.value.tgn| == 2 && TablesShape(r.value.tables)
    ensures r.Success? ==> r.value.tn[0] == meso.tn[3]
    ensures r.Success? && alt < StratosphereTop ==> r.value.tgn[0] == meso.tgn[1]
    ensures alt >= StratosphereTop ==> r == Success(Nodes(tn3[0 := meso.tn[3]], tgn3, meso.tables))
  {
    if alt >= StratosphereTop then Success(Nodes(tn3[0 := meso.tn[3]], tgn3, meso.tables))
    else VariedStratoNodes(m, k, c, sw, swc, meso)
  }

  // ----------------------------------------------------------- densities

  /** A density `x` of the fully mixed atmosphere with the departure
      `ratio` seen at 72.5 km weighted by `dmc`: `x * (1 + (ratio - 1) *
      dmc)`. */
  function Blend(x: real, ratio: real, dmc: real): real
  {
    x * (1.0 + (ratio - 1.0) * dmc)
  }

  /** Fully mixed (`dmc = 0`) the density is `x`; with the full weight
      (`dmc = 1`) it is `x` times the departure. */
  lemma BlendEnds(x: real, ratio: real)
    ensures Blend(x, ratio, 0.0) == x
    ensures Blend(x, ratio, 1.0) == x * ratio
  {
  }

  /** The departure of a gas from its ground mixing ratio `ratio` to N2 in
      the thermosphere's densities `sd` at 72.5 km. */
  function Departure(m: Math, sd: seq<real>, i: nat, ratio: real): real
    requires |sd| == 9 && i < 9
  {
    Div(m, sd[i], sd[2] * ratio)
  }

  /** `d` with its mass density `d[5]` filled in, in the units `metric`
      selects. */
  function WithMassDensity(d: seq<real>, metric: bool): (r: seq<real>)
    requires |d| == 9
    ensures |r| == 9 && MassConsistent(r, metric)
    ensures forall i :: 0 <= i < 9 && i != 5 ==> r[i] == d[i]
  {
    d[5 := if metric then MassDensity(d) / 1000.0 else MassDensity(d)]
  }

  /** Below 72.5 km `densm` does not read the temperature it is handed. */
  lemma DensmIgnoresStartingTemperature(m: Math, gsurf: real, re: real, alt: real, d0: real, xm: real, tz: real, tz': real,
                                        zn3: seq<real>, tn3: seq<real>, tgn3: seq<real>,
                                        zn2: seq<real>, tn2: seq<real>, tgn2: seq<real>)
    requires 2 <= |zn3| == |tn3| && |tgn3| == 2
    requires 2 <= |zn2| == |tn2| && |tgn2| == 2
    requires alt <= zn2[0]
    ensures DensmSpec(m, gsurf, re, alt, d0, xm, tz, zn3, tn3, tgn3, zn2, tn2, tgn2).0
         == DensmSpec(m, gsurf, re, alt, d0, xm, tz', zn3, tn3, tgn3, zn2, tn2, tgn2).0
  {
  }

  /** A species' density in a fully mixed atmosphere: the N2 density `d2`
      times the species' ground mixing ratio. */
  function AtGroundRatio(d2: real, ratio: real): real
  {
    d2 * ratio
  }

  /** He, O2 and Ar are N2 times their ground mixing ratios. */
  predicate FullyMixed(d: seq<real>, t: Tables)
    requires |d| == 9 && TablesShape(t)
  {
    d[0] == AtGroundRatio(d[2], t.pdm[0][1]) && d[3] == AtGroundRatio(d[2], t.pdm[3][1])
    && d[4] == AtGroundRatio(d[2], t.pdm[4][1])
  }

  /** The four densities that follow N2 below 72.5 km, in output order,
      before the mass density is filled in. */
  function MixedDensities(m: Math, d2: real, sd: seq<real>, t: Tables, dmc: real): (d: seq<real>)
    requires TablesShape(t) && |sd| == 9
    ensures |d| == 9 && d[2] == d2
    ensures d[1] == 0.0 && d[6] == 0.0 && d[7] == 0.0 && d[8] == 0.0
    ensures dmc == 0.0 ==> FullyMixed(d, t)
  {
    var r0 := Departure(m, sd, 0, t.pdm[0][1]);
    var r3 := Departure(m, sd, 3, t.pdm[3][1]);
    var r4 := Departure(m, sd, 4, t.pdm[4][1]);
    BlendEnds(AtGroundRatio(d2, t.pdm[0][1]), r0);
    BlendEnds(AtGroundRatio(d2, t.pdm[3][1]), r3);
    BlendEnds(AtGroundRatio(d2, t.pdm[4][1]), r4);
    [Blend(AtGroundRatio(d2, t.pdm[0][1]), r0, dmc), 0.0, d2, Blend(AtGroundRatio(d2, t.pdm[3][1]), r3, dmc),
     Blend(AtGroundRatio(d2, t.pdm[4][1]), r4, dmc),
     0.0, 0.0, 0.0, 0.0]
  }

  /** The nine densities below 72.5 km from the N2 density `n2` that
      `densm` gives: N2 blended with its departure from `dm28m` at 72.5 km,
      He, O2 and Ar following it, the rest zero and `d[5]` the mass
      density. At or below 62.5 km the atmosphere is fully mixed. */
  function LowerDensitiesFrom(m: Math, n2: real, alt: real, sd: seq<real>, dm28m: real, t: Tables, metric: bool): (d: seq<real>)
    requires TablesShape(t) && |sd| == 9
    ensures |d| == 9 && MassConsistent(d, metric)
    ensures d[1] == 0.0 && d[6] == 0.0 && d[7] == 0.0 && d[8] == 0.0
    ensures alt <= FullMixingAltitude ==> FullyMixed(d, t)
  {
    var dmc := MixingFactor(alt);
    var d := MixedDensities(m, Blend(n2, Div(m, sd[2], dm28m), dmc), sd, t, dmc);
    var out := WithMassDensity(d, metric);
    assert dmc == 0.0 ==> FullyMixed(out, t) by {
      if dmc == 0.0 {
        assert out[0] == d[0] && out[2] == d[2] && out[3] == d[3] && out[4] == d[4];
      }
    }
    out
  }

  /** The densities below 72.5 km and the temperature at `alt`. N2 is
      `densm` from `dm28m` (the engine's mixed N2 density at 72.5 km, in
      the output's units); the temperature is `densm` with zero mass. */
  function LowerDensities(m: Math, gsurf: real, re: real, alt: real, sd: seq<real>, dm28m: real, t: Tables,
                          meso: Nodes, strato: Nodes, metric: bool): (r: Result<(seq<real>, real)>)
    requires TablesShape(t) && |sd| == 9 && alt <= MesosphereTop
    requires |meso.tn| == 4 && |meso.tgn| == 2 && |strato.tn| == 5 && |strato.tgn| == 2
    ensures r.Failure? ==> r.error == MathmaticalError
    ensures r.Success? ==> |r.value.0| == 9 && MassConsistent(r.value.0, metric)
    ensures r.Success? ==> r.value.0[1] == 0.0 && r.value.0[6] == 0.0 && r.value.0[7] == 0.0 && r.value.0[8] == 0.0
    ensures r.Success? && alt <= FullMixingAltitude ==> FullyMixed(r.value.0, t)
    ensures r.Success? ==>
      DensmSpec(m, gsurf, re, alt, 1.0, 0.0, 0.0, StratoHeights, strato.tn, strato.tgn, MesoHeights, meso.tn, meso.tgn).0
        == Success(r.value.1)
  {
    var n2 := DensmSpec(m, gsurf, re, alt, dm28m, t.pdm[2][4], 0.0, StratoHeights, strato.tn, strato.tgn,
                        MesoHeights, meso.tn, meso.tgn);
    if n2.0.Failure? then Failure(n2.0.error) else
    var temperature := DensmSpec(m, gsurf, re, alt, 1.0, 0.0, n2.1, StratoHeights, strato.tn, strato.tgn,
                                 MesoHeights, meso.tn, meso.tgn);
    DensmIgnoresStartingTemperature(m, gsurf, re, alt, 1.0, 0.0, n2.1, 0.0, StratoHeights, strato.tn, strato.tgn,
                                    MesoHeights, meso.tn, meso.tgn);
    if temperature.0.Failure? then Failure(temperature.0.error)
    else Success((LowerDensitiesFrom(m, n2.0.value, alt, sd, dm28m, t, metric), temperature.1))
  }
}
