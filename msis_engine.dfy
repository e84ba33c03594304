/** The NRLMSISE-00 engine as the object it is: the state one evaluation
    leaves for the next lives in its fields (gravity and effective radius,
    the N2 mixed density `dm28`, the coefficient tables `glob7s` tags and
    `globe7` floors, the harmonic cache) and in its six node arrays, and
    every routine updates them in place. Each method is proved to leave the
    state, and to produce the output, that the corresponding function of
    the driver, thermosphere and mesosphere modules gives for the state it
    found. */
module MsisEngine {
  import opened Numerics
  import opened MsisFunctions
  import opened MsisProfiles
  import opened MsisHarmonics
  import opened MsisSpecies
  import opened MsisTables
  import opened MsisThermosphere
  import opened MsisMesosphere
  import opened MsisDriver
  import opened NativeTypes

  /** The fields of an input record that the expansions read. */
  function ConditionsOf(input: NrlmsiseInput): (c: Conditions)
    requires input.Valid()
    ensures |c.apA| == 7
  {
    Conditions(input.doy as real, input.sec, input.gLat, input.gLong, input.lst,
               input.f107A, input.f107, input.ap, input.apA)
  }

  /** The harmonic cache before the first `globe7` call. Every entry a
      `glob7s` call reads is written by the `globe7` calls that precede it
      in each evaluation, so the initial contents are never observed. */
  const InitialCache: HarmonicCache :=
    HarmonicCache(0.0, seq(4, _ => seq(9, _ => 0.0)), Harmonics(0.0, 0.0, 0.0, 0.0, 0.0, 0.0), 0.0, [0.0, 0.0, 0.0, 0.0])

  /** The closing loop of `globe7` and `glob7s`: `start` plus the fourteen
      terms `t`, each weighted by `|sw[i+1]|`. */
  method AddSwitched(start: real, sw: seq<real>, t: seq<real>) returns (v: real)
    requires |sw| == 24 && |t| == 14
    ensures v == start + SwitchedSum(sw, t, 14)
  {
    v := start;
    for i := 0 to 14
      invariant v == start + SwitchedSum(sw, t, i)
    {
      v := v + Abs(sw[i + 1]) * t[i];
    }
  }

  /** The unit conversion at the end of `gts7`, in place: every density
      times 1e6, then the mass density divided by 1000. */
  method ConvertToMetric(d: array<real>)
    requires d.Length == 9
    modifies d
    ensures d[..] == ToMetric(old(d[..]))
  {
    for i := 0 to 9
      invariant forall j :: 0 <= j < i ==> d[j] == old(d[j]) * 1.0e6
      invariant forall j :: i <= j < 9 ==> d[j] == old(d[j])
    {
      d[i] := d[i] * 1.0e6;
    }
    d[5] := d[5] / 1000.0;
  }

  /** The densities `d` and temperatures `t0`, `t1` written to `output`,
      the densities in the units `metric` selects. */
  method StoreInUnits(output: NrlmsiseOutput, d: seq<real>, t0: real, t1: real, metric: bool)
    requires output.Valid() && output.d != output.t && |d| == 9 && MassConsistent(d, false)
    modifies output.d, output.t
    ensures output.d[..] == InUnits(d, metric) && output.t[..] == [t0, t1]
  {
    Fill(output.d, d);
    output.t[0], output.t[1] := t0, t1;
    if metric {
      ConvertToMetric(output.d);
    }
  }

  /** `gtd7d`'s correction: the mass density `d[5]` recomputed to count
      anomalous oxygen, in the units `metric` selects. */
  method RecountMass(d: array<real>, metric: bool)
    requires d.Length == 9
    modifies d
    ensures d[..] == WithAnomalousOxygenMass(old(d[..]), metric)
  {
    var total := MassDensityWithAnomalousOxygen(d[..]);
    d[5] := if metric then total / 1000.0 else total;
  }

  /** The entries of `a` set one by one to those of `s`. */
  method Fill(a: array<real>, s: seq<real>)
    requires a.Length == |s|
    modifies a
    ensures a[..] == s
  {
    for i := 0 to a.Length
      invariant a[..i] == s[..i]
    {
      a[i] := s[i];
    }
  }

  class Nrlmsise {
    var gsurf: real
    var re: real
    var dd: real
    var dm28: real
    var tables: Tables
    var cache: HarmonicCache

    /** `meso_tn1`, `meso_tgn1`: the thermosphere's spline nodes. */
    const tn1: array<real>
    const tgn1: array<real>
    /** `meso_tn2`, `meso_tgn2`: the mesosphere's. */
    const tn2: array<real>
    const tgn2: array<real>
    /** `meso_tn3`, `meso_tgn3`: the stratosphere's. */
    const tn3: array<real>
    const tgn3: array<real>

    ghost predicate Valid()
      reads this
    {
      && TablesShape(tables) && CacheShape(cache)
      && tn1.Length == 5 && tgn1.Length == 2 && tn2.Length == 4 && tgn2.Length == 2 && tn3.Length == 5 && tgn3.Length == 2
      && tn1 != tgn1 && tn1 != tn2 && tn1 != tgn2 && tn1 != tn3 && tn1 != tgn3
      && tgn1 != tn2 && tgn1 != tgn2 && tgn1 != tn3 && tgn1 != tgn3
      && tn2 != tgn2 && tn2 != tn3 && tn2 != tgn3
      && tgn2 != tn3 && tgn2 != tgn3
      && tn3 != tgn3
    }

    /** The state one evaluation leaves for the next. */
    ghost function State(): (e: Engine)
      requires Valid()
      reads this, tn2, tgn2, tn3, tgn3
      ensures EngineShape(e)
    {
      Engine(gsurf, re, dm28, tables, cache, tn2[..], tgn2[..], tn3[..], tgn3[..])
    }

    /** An engine over the coefficient tables `tables`. Gravity, radius and
        `dm28` are not initialised: the first `gtd7` sets the first two,
        and `dm28` is read below 72.5 km only after `gts7` has set it or
        left the previous value. */
    constructor (tables: Tables)
      requires TablesShape(tables)
      ensures Valid() && this.tables == tables && cache == InitialCache
      ensures fresh(tn1) && fresh(tgn1) && fresh(tn2) && fresh(tgn2) && fresh(tn3) && fresh(tgn3)
    {
      this.tables := tables;
      cache := InitialCache;
      tn1 := new real[5](_ => 0.0);
      tgn1 := new real[2](_ => 0.0);
      tn2 := new real[4](_ => 0.0);
      tgn2 := new real[2](_ => 0.0);
      tn3 := new real[5](_ => 0.0);
      tgn3 := new real[2](_ => 0.0);
    }

    /** `tselec`: the weights `sw` and `swc` from the integer switches. */
    method Tselec(flags: NrlmsiseConfig)
      requires flags.Valid()
      modifies flags.sw, flags.swc
      ensures flags.sw[..] == SwitchWeights(flags.switches) && flags.swc[..] == CrossWeights(flags.switches)
    {
      for i := 0 to SwitchCount
        invariant forall j :: 0 <= j < i ==> flags.sw[j] == SwWeight(j, flags.switches[j])
        invariant forall j :: 0 <= j < i ==> flags.swc[j] == SwcWeight(j, flags.switches[j])
      {
        flags.sw[i] := SwWeight(i, flags.switches[i]);
        flags.swc[i] := SwcWeight(i, flags.switches[i]);
      }
    }

    /** `globe7` on row `row`: floors the row, refreshes the cache and
        returns `p[30]` plus the switch-weighted terms. */
    method Globe7(m: Math, row: Row, c: Conditions, sw: seq<real>, swc: seq<real>) returns (v: real)
      requires Valid() && IsGlobeRow(row) && |sw| == 24 && |swc| == 24 && |c.apA| == 7
      modifies this`tables, this`cache
      ensures Valid()
      ensures Evaluation(v, tables, cache) == Globe7Call(m, old(tables), old(cache), row, c, sw, swc)
    {
      var p := RowOf(tables, row);
      var q := Globe7Row(p, sw);
      cache := Globe7Cache(m, p, cache, c, sw);
      tables := WithRow(tables, row, q);
      v := AddSwitched(q[30], sw, Globe7Terms(m, q, cache, c, sw, swc));
    }

    /** `glob7s` on row `row`: stores the tag 2 where it was 0, refuses any
        other tag but 2, and returns the switch-weighted terms. */
    method Glob7s(m: Math, row: Row, c: Conditions, sw: seq<real>, swc: seq<real>) returns (r: Result<real>)
      requires Valid() && IsLowerRow(row) && |sw| == 24 && |swc| == 24
      modifies this`tables
      ensures Valid()
      ensures LowerEvaluation(r, tables) == Glob7sCall(m, old(tables), cache, row, c, sw, swc)
    {
      var q := TaggedRow(RowOf(tables, row));
      tables := WithRow(tables, row, q);
      if q[99] != LowerParameterSet {
        return Failure(InvalidValue);
      }
      var tt := AddSwitched(0.0, sw, Glob7sTerms(m, q, cache, c, sw, swc));
      r := Success(tt);
    }

    // ------------------------------------------------------------ gts7

    /** `tinf`: varied by `globe7` on `pt` above the joining altitude. */
    method EvaluateTinf(m: Math, c: Conditions, alt: real, sw: seq<real>, swc: seq<real>) returns (tinf: real)
      requires Valid() && |sw| == 24 && |swc| == 24 && |c.apA| == 7
      modifies this`tables, this`cache
      ensures Valid()
      ensures Evaluation(tinf, tables, cache) == ExosphericTemperature(m, old(tables), old(cache), c, alt, sw, swc)
    {
      tinf := AverageExosphericTemperature(tables);
      if alt > tables.pdl[1][15] {
        var a, b := tables.ptm[0], tables.pt[0];
        var g := Globe7(m, Pt, c, sw, swc);
        tinf := Varied(a, b, sw[16], g);
      }
    }

    /** `g0`: varied by `globe7` on `ps` above 72.5 km. */
    method EvaluateG0(m: Math, c: Conditions, alt: real, sw: seq<real>, swc: seq<real>) returns (g0: real)
      requires Valid() && |sw| == 24 && |swc| == 24 && |c.apA| == 7
      modifies this`tables, this`cache
      ensures Valid()
      ensures Evaluation(g0, tables, cache) == BoundaryGradient(m, old(tables), old(cache), c, alt, sw, swc)
    {
      g0 := tables.ptm[3] * tables.ps[0];
      if alt > MesosphereTop {
        var a, b := tables.ptm[3], tables.ps[0];
        var g := Globe7(m, Ps, c, sw, swc);
        g0 := Varied(a, b, sw[19], g);
      }
    }

    /** `tlb`: varied by `globe7` on `pd[3]`. */
    method EvaluateTlb(m: Math, c: Conditions, sw: seq<real>, swc: seq<real>) returns (tlb: real)
      requires Valid() && |sw| == 24 && |swc| == 24 && |c.apA| == 7
      modifies this`tables, this`cache
      ensures Valid()
      ensures Evaluation(tlb, tables, cache) == BoundaryTemperature(m, old(tables), old(cache), c, sw, swc)
    {
      var a, b := tables.ptm[1], tables.pd[3][0];
      var g := Globe7(m, Pd(3), c, sw, swc);
      tlb := Varied(a, b, sw[17], g);
    }

    /** The exosphere part of `gts7`: `tinf`, `g0`, `tlb` and the shape `s`. */
    method EvaluateExosphere(m: Math, c: Conditions, alt: real, sw: seq<real>, swc: seq<real>) returns (ex: Exosphere)
      requires Valid() && |sw| == 24 && |swc| == 24 && |c.apA| == 7
      modifies this`tables, this`cache
      ensures Valid()
      ensures ExosphereEvaluation(ex, tables, cache) == ExosphereStage(m, old(tables), old(cache), c, alt, sw, swc)
    {
      hide ExosphericTemperature, BoundaryGradient, BoundaryTemperature;
      var tinf := EvaluateTinf(m, c, alt, sw, swc);
      var g0 := EvaluateG0(m, c, alt, sw, swc);
      var tlb := EvaluateTlb(m, c, sw, swc);
      ex := Exosphere(tinf, g0, tlb, Div(m, g0, tinf - tlb));
    }

    /** The nodes `tn1[1..3]` varied by `glob7s`, in that order. */
    method EvaluateUpperNodes(m: Math, c: Conditions, sw: seq<real>, swc: seq<real>) returns (r: Result<seq<real>>)
      requires Valid() && |sw| == 24 && |swc| == 24
      modifies this`tables
      ensures Valid()
      ensures var n := UpperNodes(m, old(tables), cache, c, sw, swc);
        && (r.Failure? <==> n.Failure?) && (r.Failure? ==> r.error == n.error)
        && (n.Success? ==> tables == n.value.tables && r.value == n.value.tn)
    {
      hide Glob7sCall;
      var t := tables;
      ghost var g0 := Glob7sCall(m, t, cache, Ptl(0), c, sw, swc);
      var e0 := Glob7s(m, Ptl(0), c, sw, swc);
      if e0.Failure? { return Failure(e0.error); }
      ghost var g1 := Glob7sCall(m, g0.tables, cache, Ptl(1), c, sw, swc);
      var e1 := Glob7s(m, Ptl(1), c, sw, swc);
      if e1.Failure? { return Failure(e1.error); }
      var e2 := Glob7s(m, Ptl(2), c, sw, swc);
      if e2.Failure? { return Failure(e2.error); }
      r := Success([NodeTemperature(m, t.ptm[6], t.ptl[0][0], sw[18], e0.value),
                    NodeTemperature(m, t.ptm[2], t.ptl[1][0], sw[18], e1.value),
                    NodeTemperature(m, t.ptm[7], t.ptl[2][0], sw[18], e2.value)]);
    }

    /** The nodes `tn1[1..4]` and the gradient `tgn1[1]` varied by
        `glob7s`, in that order. */
    method EvaluateVariedNodes(m: Math, c: Conditions, sw: seq<real>, swc: seq<real>) returns (r: Result<NodeEvaluation>)
      requires Valid() && |sw| == 24 && |swc| == 24
      modifies this`tables
      ensures Valid() && r == VariedNodes(m, old(tables), cache, c, sw, swc)
      ensures r.Success? ==> tables == r.value.tables
    {
      hide Glob7sCall, UpperNodes;
      var t := tables;
      var u := EvaluateUpperNodes(m, c, sw, swc);
      if u.Failure? { return Failure(u.error); }
      var e3 := Glob7s(m, Ptl(3), c, sw, swc);
      if e3.Failure? { return Failure(e3.error); }
      var e8 := Glob7s(m, Pma(8), c, sw, swc);
      if e8.Failure? { return Failure(e8.error); }
      var tn4 := NodeTemperature(m, t.ptm[4], t.ptl[3][0], JointWeight(sw[18], sw[20]), e3.value);
      r := Success(NodeEvaluation(u.value + [tn4],
        NodeGradient(m, t.ptm[8], t.pma[8][0], JointWeight(sw[18], sw[20]), e8.value, tn4, LowestNodeAverage(t)),
        tables));
    }

    /** The lower-thermosphere nodes `tn1[1..4]` and the gradient `tgn1[1]`
        of `gts7`: varied by `glob7s` below 300 km, the averages above. */
    method EvaluateNodes(m: Math, c: Conditions, alt: real, sw: seq<real>, swc: seq<real>) returns (r: Result<()>)
      requires Valid() && |sw| == 24 && |swc| == 24
      modifies this`tables, tn1, tgn1
      ensures Valid() && tn1[0] == old(tn1[0]) && tgn1[0] == old(tgn1[0])
      ensures var n := NodeStage(m, old(tables), cache, c, alt, sw, swc);
        && (r.Failure? <==> n.Failure?) && (r.Failure? ==> r.error == n.error)
        && (n.Success? ==> tables == n.value.tables && tn1[1..] == n.value.tn && tgn1[1] == n.value.tgn)
    {
      hide VariedNodes;
      var tn, tgn;
      if alt < NodeVariationTop {
        var n := EvaluateVariedNodes(m, c, sw, swc);
        if n.Failure? { return Failure(n.error); }
        tn, tgn := n.value.tn, n.value.tgn;
      } else {
        var t := tables;
        tn := AverageNodes(t);
        tgn := AverageNodeGradient(m, t.ptm[8], t.pma[8][0], tn[3], tn[3]);
      }
      tn1[1], tn1[2], tn1[3], tn1[4] := tn[0], tn[1], tn[2], tn[3];
      tgn1[1] := tgn;
      assert tn1[1..] == tn;
      r := Success(());
    }

    /** The temperature profile of `gts7`: the exosphere, then the nodes,
        which the node arrays hold afterwards. */
    method EvaluateProfile(m: Math, c: Conditions, alt: real, sw: seq<real>, swc: seq<real>) returns (r: Result<Thermosphere>)
      requires Valid() && |sw| == 24 && |swc| == 24 && |c.apA| == 7
      modifies this`tables, this`cache, tn1, tgn1
      ensures Valid()
      ensures var p := ProfileStage(m, gsurf, re, old(tables), old(cache), c, alt, sw, swc);
        && (r.Failure? <==> p.Failure?) && (r.Failure? ==> r.error == p.error)
        && (p.Success? ==> r.value == p.value.th && tables == p.value.tables && cache == p.value.cache)
      ensures r.Success? ==> OnNodes(r.value, tn1[..], tgn1[..])
    {
      hide ExosphereStage, NodeStage;
      var t := tables;
      var ex := EvaluateExosphere(m, c, alt, sw, swc);
      ghost var k := cache;
      var n := EvaluateNodes(m, c, alt, sw, swc);
      if n.Failure? {
        return Failure(n.error);
      }
      var th := Thermosphere(gsurf, re, ex.tinf, ex.tlb, t.ptm[5], ex.s, JoiningHeights(t.pdl[1][15]), tn1[1..], tgn1[1]);
      assert tn1[..][1..] == tn1[1..];
      r := Success(th);
    }

    /** The N2 block of `gts7`: `globe7` on `pd[2]`, then N2's densities on
        the node arrays. */
    method EvaluateNitrogen(m: Math, th: Thermosphere, c: Conditions, z: real, sw: seq<real>, swc: seq<real>)
      returns (r: Result<NitrogenEvaluation>)
      requires Valid() && OnNodes(th, tn1[..], tgn1[..]) && |sw| == 24 && |swc| == 24 && |c.apA| == 7
      modifies this`tables, this`cache, tn1, tgn1
      ensures Valid() && OnNodes(th, tn1[..], tgn1[..])
      ensures r == NitrogenStage(m, th, old(tables), old(cache), c, z, sw, swc)
      ensures r.Success? ==> tables == r.value.tables && cache == r.value.cache
    {
      hide Globe7Call, NitrogenDensity, NitrogenBoundary, TurbopauseHeight, MixingScale;
      var t := tables;
      var g := Globe7(m, Pd(2), c, sw, swc);
      var n := NitrogenOnNodes(m, th, tn1, tgn1, z, NitrogenBoundary(m, t, g, sw), Alpha[2], TurbopauseHeight(m, t, c, sw),
                               t.pdm[2][4], MixingScale(t), sw[15] != 0.0 && z <= Ceiling[2]);
      if n.Failure? {
        return Failure(n.error);
      }
      r := Success(NitrogenEvaluation(n.value.0, n.value.1, tables, cache));
    }

    /** The block of `gts7` for the gas `g`: `globe7` on its `pd` row, then
        its densities on the node arrays. */
    method EvaluateGas(m: Math, g: Gas, th: Thermosphere, c: Conditions, z: real, b28: real, xmm: real, zhm: real,
                       sw: seq<real>, swc: seq<real>) returns (r: Result<GasEvaluation>)
      requires Valid() && OnNodes(th, tn1[..], tgn1[..]) && |sw| == 24 && |swc| == 24 && |c.apA| == 7
      modifies this`tables, this`cache, tn1, tgn1
      ensures Valid() && OnNodes(th, tn1[..], tgn1[..])
      ensures r == GasStage(m, g, th, old(tables), old(cache), c, z, b28, xmm, zhm, sw, swc)
      ensures r.Success? ==> tables == r.value.tables && cache == r.value.cache
    {
      hide Globe7Call, SpeciesDensity, GasBoundary, RecipeOf;
      var t := tables;
      var e := Globe7(m, Pd(DensityRow(g)), c, sw, swc);
      var o := SpeciesOnNodes(m, th, tn1, tgn1, z, GasBoundary(m, g, t, e, sw), b28, xmm, zhm,
                              RecipeOf(m, g, t, c, z, sw), sw[15] != 0.0);
      if o.Failure? {
        return Failure(o.error);
      }
      r := Success(GasEvaluation(o.value.density, tables, cache));
    }

    /** The blocks of the gases `gs`, in order. */
    method EvaluateGasChain(m: Math, gs: seq<Gas>, th: Thermosphere, c: Conditions, z: real, b28: real, xmm: real, zhm: real,
                            sw: seq<real>, swc: seq<real>) returns (r: Result<ChainEvaluation>)
      requires Valid() && OnNodes(th, tn1[..], tgn1[..]) && |sw| == 24 && |swc| == 24 && |c.apA| == 7
      modifies this`tables, this`cache, tn1, tgn1
      ensures Valid() && OnNodes(th, tn1[..], tgn1[..])
      ensures r == GasChain(m, gs, th, old(tables), old(cache), c, z, b28, xmm, zhm, sw, swc)
      ensures r.Success? ==> tables == r.value.tables && cache == r.value.cache
      decreases |gs|
    {
      if gs == [] {
        return Success(ChainEvaluation([], tables, cache));
      }
      var e := EvaluateGas(m, gs[0], th, c, z, b28, xmm, zhm, sw, swc);
      if e.Failure? {
        return Failure(e.error);
      }
      var rest := EvaluateGasChain(m, gs[1..], th, c, z, b28, xmm, zhm, sw, swc);
      if rest.Failure? {
        return Failure(rest.error);
      }
      r := Success(ChainEvaluation([e.value.density] + rest.value.densities, tables, cache));
    }

    /** The anomalous-oxygen block of `gts7`: `globe7` on `pd[8]`, then its
        density on its own profile over the node arrays. */
    method EvaluateHotOxygen(m: Math, th: Thermosphere, c: Conditions, z: real, sw: seq<real>, swc: seq<real>)
      returns (r: Result<GasEvaluation>)
      requires Valid() && OnNodes(th, tn1[..], tgn1[..]) && |sw| == 24 && |swc| == 24 && |c.apA| == 7
      modifies this`tables, this`cache, tn1, tgn1
      ensures Valid() && OnNodes(th, tn1[..], tgn1[..])
      ensures r == HotOxygenStage(m, th, old(tables), old(cache), c, z, sw, swc)
      ensures r.Success? ==> tables == r.value.tables && cache == r.value.cache
    {
      hide Globe7Call, AnomalousOxygen, HotOxygenBoundary, HotOxygenTemperature;
      var t := tables;
      var g := Globe7(m, Pd(8), c, sw, swc);
      var d := AnomalousOxygenOnNodes(m, th, tn1, tgn1, z, HotOxygenBoundary(m, t, g, sw), HotOxygenTemperature(t),
                                      Alpha[8], t.pdm[7][5], t.pdm[7][4]);
      if d.Failure? {
        return Failure(d.error);
      }
      r := Success(GasEvaluation(d.value, tables, cache));
    }

    /** The species blocks of `gts7`: N2, the other gases in `GasOrder`,
        anomalous oxygen; a mixed N2 leaves its mixed density in `dm28`. */
    method EvaluateSpecies(m: Math, th: Thermosphere, c: Conditions, z: real, sw: seq<real>, swc: seq<real>)
      returns (r: Result<SpeciesEvaluation>)
      requires Valid() && OnNodes(th, tn1[..], tgn1[..]) && |sw| == 24 && |swc| == 24 && |c.apA| == 7
      modifies this`tables, this`cache, this`dm28, tn1, tgn1
      ensures Valid() && OnNodes(th, tn1[..], tgn1[..])
      ensures r == SpeciesStage(m, th, old(tables), old(cache), c, z, old(dm28), sw, swc)
      ensures r.Success? ==> tables == r.value.tables && cache == r.value.cache && dm28 == r.value.dm28
    {
      hide NitrogenStage, GasChain, HotOxygenStage, Densities, MixingScale;
      var t := tables;
      var n2 := EvaluateNitrogen(m, th, c, z, sw, swc);
      if n2.Failure? {
        return Failure(n2.error);
      }
      if n2.value.outcome.Mixed? {
        dm28 := n2.value.outcome.mix.dm;
      }
      var gases := EvaluateGasChain(m, GasOrder, th, c, z, n2.value.b28, t.pdm[2][4], MixingScale(t), sw, swc);
      GasChainFailsOnArithmetic(m, GasOrder, th, n2.value.tables, n2.value.cache, c, z, n2.value.b28, t.pdm[2][4], MixingScale(t), sw, swc);
      if gases.Failure? {
        return Failure(gases.error);
      }
      var hot := EvaluateHotOxygen(m, th, c, z, sw, swc);
      if hot.Failure? {
        return Failure(hot.error);
      }
      r := Success(SpeciesEvaluation(Densities(n2.value.outcome.density, gases.value.densities, hot.value.density),
                                     dm28, tables, cache));
    }

    /** The end of `gts7`: the temperature at `|alt|` by `densu` on the
        node arrays, then the output, in the units `metric` selects. */
    method StoreOutcome(m: Math, th: Thermosphere, sp: SpeciesEvaluation, alt: real, metric: bool, output: NrlmsiseOutput)
      returns (r: Result<()>)
      requires Valid() && OnNodes(th, tn1[..], tgn1[..]) && |sp.d| == 9 && MassConsistent(sp.d, false)
      requires output.Valid() && output.d != output.t
      requires output.d != tn1 && output.d != tgn1 && output.t != tn1 && output.t != tgn1
      modifies tn1, tgn1, output.d, output.t
      ensures OnNodes(th, tn1[..], tgn1[..])
      ensures var o := Gts7Outcome(m, th, sp, alt, metric);
        && (r.Failure? <==> o.Failure?) && (r.Failure? ==> r.error == o.error)
        && (o.Success? ==> output.d[..] == o.value.d && output.t[..] == o.value.t)
    {
      var temperature, tz := DensuOnNodes(m, th, tn1, tgn1, Magnitude(m, alt), 1.0, 0.0, 0.0);
      if temperature.Failure? {
        return Failure(temperature.error);
      }
      StoreInUnits(output, sp.d, th.tinf, tz, metric);
      r := Success(());
    }

    /** The engine's arrays and those of the records it is given are
        distinct, as the members of distinct objects are. */
    ghost predicate Apart(input: NrlmsiseInput, flags: NrlmsiseConfig, output: NrlmsiseOutput)
    {
      && output.d != output.t && Foreign(output.d) && Foreign(output.t)
      && output.d != flags.sw && output.d != flags.swc
      && output.t != flags.sw && output.t != flags.swc
      && Foreign(flags.sw) && Foreign(flags.swc)
    }

    /** `a` is none of the engine's node arrays. */
    ghost predicate Foreign(a: array<real>)
    {
      a != tn1 && a != tgn1 && a != tn2 && a != tgn2 && a != tn3 && a != tgn3
    }

    /** `gts7`: the thermosphere at `input.alt` with gravity and radius from
        the last `gtd7`, filling `output`. */
    method Gts7(m: Math, input: NrlmsiseInput, flags: NrlmsiseConfig, output: NrlmsiseOutput) returns (r: Result<()>)
      requires Valid() && input.Valid() && flags.Valid() && output.Valid() && Apart(input, flags, output)
      modifies this`tables, this`cache, this`dm28, tn1, tgn1, output.d, output.t
      ensures Valid()
      ensures var s := Gts7Spec(m, gsurf, re, old(tables), old(cache), old(dm28), ConditionsOf(input), input.alt,
                                flags.sw[..], flags.swc[..]);
        && (r.Failure? <==> s.Failure?) && (r.Failure? ==> r.error == s.error)
        && (s.Success? ==> output.d[..] == s.value.d && output.t[..] == s.value.t && dm28 == s.value.dm28
                            && tables == s.value.tables && cache == s.value.cache && OnNodes(s.value.th, tn1[..], tgn1[..]))
    {
      hide ProfileStage, SpeciesStage, Gts7Outcome;
      var sw, swc := flags.sw[..], flags.swc[..];
      var c := ConditionsOf(input);
      var alt := input.alt;
      var p := EvaluateProfile(m, c, alt, sw, swc);
      if p.Failure? {
        return Failure(p.error);
      }
      var th := p.value;
      var sp := EvaluateSpecies(m, th, c, alt, sw, swc);
      if sp.Failure? {
        return Failure(sp.error);
      }
      r := StoreOutcome(m, th, sp.value, alt, sw[0] != 0.0, output);
    }

    // ------------------------------------------------------------ gtd7

    /** The mesosphere nodes below the top one, varied by `glob7s`, in that
        order. */
    method EvaluateMesosphere(m: Math, c: Conditions, sw: seq<real>, swc: seq<real>, top: real, topGradient: real)
      returns (r: Result<Nodes>)
      requires Valid() && |sw| == 24 && |swc| == 24
      modifies this`tables
      ensures Valid() && r == MesosphereNodes(m, old(tables), cache, c, sw, swc, top, topGradient)
      ensures r.Success? ==> tables == r.value.tables
    {
      hide Glob7sCall;
      var t := tables;
      ghost var g0 := Glob7sCall(m, t, cache, Pma(0), c, sw, swc);
      var e0 := Glob7s(m, Pma(0), c, sw, swc);
      if e0.Failure? { return Failure(e0.error); }
      ghost var g1 := Glob7sCall(m, g0.tables, cache, Pma(1), c, sw, swc);
      var e1 := Glob7s(m, Pma(1), c, sw, swc);
      if e1.Failure? { return Failure(e1.error); }
      ghost var g2 := Glob7sCall(m, g1.tables, cache, Pma(2), c, sw, swc);
      var e2 := Glob7s(m, Pma(2), c, sw, swc);
      if e2.Failure? { return Failure(e2.error); }
      var e9 := Glob7s(m, Pma(9), c, sw, swc);
      if e9.Failure? { return Failure(e9.error); }
      var tn3 := NodeTemperature(m, t.pma[2][0], t.pavgm[2], JointWeight(sw[20], sw[22]), e2.value);
      r := Success(Nodes(
        [top, NodeTemperature(m, t.pma[0][0], t.pavgm[0], sw[20], e0.value), NodeTemperature(m, t.pma[1][0], t.pavgm[1], sw[20], e1.value), tn3],
        [topGradient, NodeGradient(m, t.pavgm[8], t.pma[9][0], JointWeight(sw[20], sw[22]), e9.value, tn3, MesoBottomAverage(t))],
        tables));
    }

    /** The stratosphere nodes `tn3[1..3]` varied by `glob7s`, in that
        order. */
    method EvaluateUpperStrato(m: Math, c: Conditions, sw: seq<real>, swc: seq<real>) returns (r: Result<NodeRun>)
      requires Valid() && |sw| == 24 && |swc| == 24
      modifies this`tables
      ensures Valid() && r == UpperStratoNodes(m, old(tables), cache, c, sw, swc)
      ensures r.Success? ==> tables == r.value.tables
    {
      hide Glob7sCall;
      var t := tables;
      ghost var g3 := Glob7sCall(m, t, cache, Pma(3), c, sw, swc);
      var e3 := Glob7s(m, Pma(3), c, sw, swc);
      if e3.Failure? { return Failure(e3.error); }
      ghost var g4 := Glob7sCall(m, g3.tables, cache, Pma(4), c, sw, swc);
      var e4 := Glob7s(m, Pma(4), c, sw, swc);
      if e4.Failure? { return Failure(e4.error); }
      var e5 := Glob7s(m, Pma(5), c, sw, swc);
      if e5.Failure? { return Failure(e5.error); }
      r := Success(NodeRun(
        [NodeTemperature(m, t.pma[3][0], t.pavgm[3], sw[22], e3.value),
         NodeTemperature(m, t.pma[4][0], t.pavgm[4], sw[22], e4.value),
         NodeTemperature(m, t.pma[5][0], t.pavgm[5], sw[22], e5.value)],
        tables));
    }

    /** The stratosphere nodes below 32.5 km, joined to the mesosphere
        nodes `meso`. */
    method EvaluateVariedStrato(m: Math, c: Conditions, sw: seq<real>, swc: seq<real>, meso: Nodes) returns (r: Result<Nodes>)
      requires Valid() && |sw| == 24 && |swc| == 24 && meso.tables == tables && |meso.tn| == 4 && |meso.tgn| == 2
      modifies this`tables
      ensures Valid() && r == VariedStratoNodes(m, cache, c, sw, swc, meso)
      ensures r.Success? ==> tables == r.value.tables
    {
      hide Glob7sCall, UpperStratoNodes;
      var t := tables;
      var u := EvaluateUpperStrato(m, c, sw, swc);
      if u.Failure? { return Failure(u.error); }
      var e6 := Glob7s(m, Pma(6), c, sw, swc);
      if e6.Failure? { return Failure(e6.error); }
      var e7 := Glob7s(m, Pma(7), c, sw, swc);
      if e7.Failure? { return Failure(e7.error); }
      var tn4 := NodeTemperature(m, t.pma[6][0], t.pavgm[6], sw[22], e6.value);
      r := Success(Nodes([meso.tn[3]] + u.value.tn + [tn4],
                         [meso.tgn[1], NodeGradient(m, t.pma[7][0], t.pavgm[7], sw[22], e7.value, tn4, StratoBottomAverage(t))],
                         tables));
    }

    /** The stratosphere nodes: varied below 32.5 km, otherwise the old
        ones with the top node joined to the mesosphere's bottom node. */
    method EvaluateStratosphere(m: Math, c: Conditions, alt: real, sw: seq<real>, swc: seq<real>, meso: Nodes) returns (r: Result<Nodes>)
      requires Valid() && |sw| == 24 && |swc| == 24 && meso.tables == tables && |meso.tn| == 4 && |meso.tgn| == 2
      modifies this`tables
      ensures Valid() && r == StratosphereNodes(m, cache, c, alt, sw, swc, meso, tn3[..], tgn3[..])
      ensures r.Success? ==> tables == r.value.tables
    {
      hide VariedStratoNodes;
      if alt >= StratosphereTop {
        r := Success(Nodes(tn3[..][0 := meso.tn[3]], tgn3[..], tables));
      } else {
        r := EvaluateVariedStrato(m, c, sw, swc, meso);
      }
    }

    /** The densities below 72.5 km and the temperature at `alt`, by
        `densm` on the mesosphere and stratosphere nodes, into `output`;
        the temperature's `densm` result is left in `dd`. */
    method LowerOutput(m: Math, alt: real, sd: seq<real>, dm28m: real, t: Tables, meso: Nodes, strato: Nodes, metric: bool,
                       output: NrlmsiseOutput) returns (r: Result<()>)
      requires TablesShape(t) && |sd| == 9 && alt <= MesosphereTop
      requires |meso.tn| == 4 && |meso.tgn| == 2 && |strato.tn| == 5 && |strato.tgn| == 2
      requires output.Valid() && output.d != output.t
      modifies this`dd, output.d, output.t
      ensures var l := LowerDensities(m, gsurf, re, alt, sd, dm28m, t, meso, strato, metric);
        && (r.Failure? <==> l.Failure?) && (r.Failure? ==> r.error == l.error)
        && (l.Success? ==> output.d[..] == l.value.0 && output.t[..] == [old(output.t[0]), l.value.1] && dd == l.value.1)
    {
      hide DensmSpec, LowerDensitiesFrom;
      var n2, tz := Densm(m, gsurf, re, alt, dm28m, t.pdm[2][4], 0.0, StratoHeights, strato.tn, strato.tgn,
                          MesoHeights, meso.tn, meso.tgn);
      if n2.Failure? {
        return Failure(n2.error);
      }
      Fill(output.d, LowerDensitiesFrom(m, n2.value, alt, sd, dm28m, t, metric));
      var temperature;
      temperature, tz := Densm(m, gsurf, re, alt, 1.0, 0.0, tz, StratoHeights, strato.tn, strato.tgn,
                               MesoHeights, meso.tn, meso.tgn);
      if temperature.Failure? {
        return Failure(temperature.error);
      }
      dd := temperature.value;
      output.t[1] := tz;
      r := Success(());
    }

    /** The mesosphere and stratosphere nodes below the thermosphere's
        lowest node `top`, evaluated without writing the node arrays. */
    method EvaluateLowerNodes(m: Math, c: Conditions, alt: real, sw: seq<real>, swc: seq<real>, top: real, topGradient: real)
      returns (r: Result<(Nodes, Nodes)>)
      requires Valid() && |sw| == 24 && |swc| == 24
      modifies this`tables
      ensures Valid() && r == LowerNodes(m, old(tables), cache, c, alt, sw, swc, top, topGradient, tn3[..], tgn3[..])
      ensures r.Success? ==> tables == r.value.1.tables
    {
      hide MesosphereNodes, StratosphereNodes;
      var meso := EvaluateMesosphere(m, c, sw, swc, top, topGradient);
      if meso.Failure? {
        return Failure(meso.error);
      }
      var strato := EvaluateStratosphere(m, c, alt, sw, swc, meso.value);
      if strato.Failure? {
        return Failure(strato.error);
      }
      r := Success((meso.value, strato.value));
    }

    /** `gtd7` below 72.5 km, after `gts7` at 72.5 km has evaluated the
        profile `th` (on the node arrays) and the densities `sd`: the
        mesosphere and stratosphere nodes, then the densities and the
        temperature into `output`. */
    method EvaluateLower(m: Math, c: Conditions, alt: real, sw: seq<real>, swc: seq<real>, ghost th: Thermosphere,
                         sd: seq<real>, output: NrlmsiseOutput) returns (r: Result<()>)
      requires Valid() && OnNodes(th, tn1[..], tgn1[..]) && |th.tnLow| == 4 && |sd| == 9
      requires |sw| == 24 && |swc| == 24 && alt < MesosphereTop
      requires output.Valid() && output.d != output.t
      requires output.d != tn2 && output.d != tgn2 && output.d != tn3 && output.d != tgn3
      requires output.t != tn2 && output.t != tgn2 && output.t != tn3 && output.t != tgn3
      modifies this`tables, this`dd, tn2, tgn2, tn3, tgn3, output.d, output.t
      ensures Valid()
      ensures var l := LowerAtmosphere(m, old(State()), th, sd, c, alt, sw, swc);
        && (r.Failure? <==> l.Failure?) && (r.Failure? ==> r.error == l.error)
        && (l.Success? ==> output.d[..] == l.value.d && output.t[..] == [old(output.t[0]), l.value.tz] && State() == l.value.engine)
    {
      hide LowerNodes, LowerFromNodes;
      ghost var e := State();
      assert tn1[4] == tn1[1..][3];
      var nodes := EvaluateLowerNodes(m, c, alt, sw, swc, tn1[4], tgn1[1]);
      if nodes.Failure? {
        return Failure(nodes.error);
      }
      r := EvaluateFromNodes(m, e, alt, sd, sw[0] != 0.0, nodes.value.0, nodes.value.1, output);
    }

    /** The densities and temperature below 72.5 km from the mesosphere
        and stratosphere nodes into `output`, then the nodes into their
        arrays. */
    method EvaluateFromNodes(m: Math, ghost e: Engine, alt: real, sd: seq<real>, metric: bool, meso: Nodes, strato: Nodes,
                             output: NrlmsiseOutput) returns (r: Result<()>)
      requires Valid() && |sd| == 9 && alt < MesosphereTop && EngineShape(e)
      requires gsurf == e.gsurf && re == e.re && dm28 == e.dm28 && cache == e.cache && tables == strato.tables
      requires |meso.tn| == 4 && |meso.tgn| == 2 && |strato.tn| == 5 && |strato.tgn| == 2
      requires output.Valid() && output.d != output.t
      requires output.d != tn2 && output.d != tgn2 && output.d != tn3 && output.d != tgn3
      requires output.t != tn2 && output.t != tgn2 && output.t != tn3 && output.t != tgn3
      modifies this`dd, tn2, tgn2, tn3, tgn3, output.d, output.t
      ensures Valid()
      ensures var l := LowerFromNodes(m, e, alt, sd, metric, meso, strato);
        && (r.Failure? <==> l.Failure?) && (r.Failure? ==> r.error == l.error)
        && (l.Success? ==> output.d[..] == l.value.d && output.t[..] == [old(output.t[0]), l.value.tz] && State() == l.value.engine)
    {
      hide LowerDensities;
      r := LowerOutput(m, alt, sd, MixedInUnits(dm28, metric), tables, meso, strato, metric, output);
      if r.Failure? {
        return;
      }
      StoreLowerNodes(meso, strato);
    }

    /** Writes the mesosphere and stratosphere nodes to their arrays. */
    method StoreLowerNodes(meso: Nodes, strato: Nodes)
      requires Valid() && |meso.tn| == 4 && |meso.tgn| == 2 && |strato.tn| == 5 && |strato.tgn| == 2
      modifies tn2, tgn2, tn3, tgn3
      ensures tn2[..] == meso.tn && tgn2[..] == meso.tgn && tn3[..] == strato.tn && tgn3[..] == strato.tgn
    {
      Fill(tn2, meso.tn);
      Fill(tgn2, meso.tgn);
      Fill(tn3, strato.tn);
      Fill(tgn3, strato.tgn);
    }

    /** `r` reports the outcome `g` of a `gtd7` evaluation: the same error,
        or the densities and temperatures in `output`, the state `g`
        leaves, and its thermosphere profile on the node arrays. */
    ghost predicate Delivered(g: Result<Gtd7Evaluation>, r: Result<()>, output: NrlmsiseOutput)
      requires Valid()
      reads this, tn1, tgn1, tn2, tgn2, tn3, tgn3, output.d, output.t
    {
      && (r.Failure? <==> g.Failure?) && (r.Failure? ==> r.error == g.error)
      && (g.Success? ==> output.d[..] == g.value.d && output.t[..] == g.value.t && State() == g.value.engine
                         && OnNodes(g.value.th, tn1[..], tgn1[..]))
    }

    /** `gtd7`: the switch weights from `flags`, gravity and radius at the
        latitude (45 degrees when switch 2 is off), then the evaluation at
        the altitude. */
    method Gtd7(m: Math, input: NrlmsiseInput, flags: NrlmsiseConfig, output: NrlmsiseOutput) returns (r: Result<()>)
      requires Valid() && input.Valid() && flags.Valid() && output.Valid() && Apart(input, flags, output)
      modifies this, tn1, tgn1, tn2, tgn2, tn3, tgn3, flags.sw, flags.swc, output.d, output.t, input`alt
      ensures Valid()
      ensures flags.sw[..] == SwitchWeights(flags.switches) && flags.swc[..] == CrossWeights(flags.switches)
      ensures Delivered(Gtd7Spec(m, old(State()), ConditionsOf(input), old(input.alt), flags.switches), r, output)
      ensures r.Success? ==> input.alt == old(input.alt)
    {
      hide Gtd7At, Gts7Spec, LowerAtmosphere, Glatf, FullyMixed, MassConsistent;
      Tselec(flags);
      MetricWeight(flags.switches);
      var g := Glatf(m, if flags.sw[2] == 0.0 then 45.0 else input.gLat);
      gsurf, re := g.0, g.1;
      r := EvaluateAt(m, input, flags, output);
    }

    /** `gtd7` once gravity and radius are set: `gts7` at the altitude or
        at 72.5 km if lower (the altitude is moved there and, when `gts7`
        succeeds, put back), then below 72.5 km the lower atmosphere. */
    method EvaluateAt(m: Math, input: NrlmsiseInput, flags: NrlmsiseConfig, output: NrlmsiseOutput) returns (r: Result<()>)
      requires Valid() && input.Valid() && flags.Valid() && output.Valid() && Apart(input, flags, output)
      modifies this`tables, this`cache, this`dm28, this`dd, tn1, tgn1, tn2, tgn2, tn3, tgn3, output.d, output.t, input`alt
      ensures Valid()
      ensures Delivered(Gtd7At(m, old(State()), ConditionsOf(input), old(input.alt), flags.sw[..], flags.swc[..]), r, output)
      ensures r.Success? ==> input.alt == old(input.alt)
    {
      hide Gts7Spec, Gtd7Below, Gtd7At, MassConsistent, FullyMixed, Fits;
      var c, sw, swc := ConditionsOf(input), flags.sw[..], flags.swc[..];
      ghost var e := State();
      var alt := input.alt;
      Gtd7AtSteps(m, e, c, alt, sw, swc);
      ghost var s := Gts7Spec(m, e.gsurf, e.re, e.tables, e.cache, e.dm28, c, Max(alt, MesosphereTop), sw, swc);
      var up, soutput := EvaluateAbove(m, input, flags, e, c, alt, sw, swc);
      if up.Failure? {
        return Failure(up.error);
      }
      r := EvaluateBelow(m, c, alt, sw, swc, s.value, soutput, output);
    }

    /** The first half of `gtd7`: `gts7` into a fresh output record with
        `input.alt` raised to at least 72.5 km for the call and restored
        after it. */
    method EvaluateAbove(m: Math, input: NrlmsiseInput, flags: NrlmsiseConfig, ghost e: Engine, ghost c: Conditions,
                         alt: real, ghost sw: seq<real>, ghost swc: seq<real>) returns (r: Result<()>, soutput: NrlmsiseOutput)
      requires Valid() && input.Valid() && flags.Valid()
      requires Foreign(flags.sw) && Foreign(flags.swc)
      requires e == State() && c == ConditionsOf(input) && alt == input.alt && sw == flags.sw[..] && swc == flags.swc[..]
      modifies this`tables, this`cache, this`dm28, tn1, tgn1, input`alt
      ensures Valid() && fresh(soutput) && fresh(soutput.d) && fresh(soutput.t) && soutput.Valid()
      ensures c == ConditionsOf(input)
      ensures var s := Gts7Spec(m, e.gsurf, e.re, e.tables, e.cache, e.dm28, c, Max(alt, MesosphereTop), sw, swc);
        && (r.Failure? <==> s.Failure?) && (r.Failure? ==> r.error == s.error)
        && (s.Success? ==> State() == e.(dm28 := s.value.dm28, tables := s.value.tables, cache := s.value.cache)
                            && Staged(s.value, sw, soutput))
      ensures r.Success? ==> input.alt == alt
    {
      hide Gts7Spec;
      input.alt := Max(alt, MesosphereTop);
      soutput := new NrlmsiseOutput();
      r := Gts7(m, input, flags, soutput);
      if r.Success? {
        input.alt := alt;
      }
    }

    /** `gts7` has produced `u` in `soutput` and its profile on the nodes. */
    ghost predicate Staged(u: Gts7Evaluation, sw: seq<real>, soutput: NrlmsiseOutput)
      requires Valid() && |sw| == 24
      reads this, tn1, tgn1, soutput, soutput.d, soutput.t
    {
      && |u.d| == 9 && MassConsistent(u.d, sw[0] != 0.0) && |u.t| == 2 && u.t[0] == u.th.tinf
      && OnNodes(u.th, tn1[..], tgn1[..]) && |u.th.tnLow| == 4
      && soutput.Valid() && soutput.d[..] == u.d && soutput.t[..] == u.t
    }

    /** `gtd7` after `gts7` has produced `u` in `soutput`: the temperatures
        copied to `output`, and the densities of `u` at or above 72.5 km;
        below, the lower atmosphere's. */
    method EvaluateBelow(m: Math, c: Conditions, alt: real, sw: seq<real>, swc: seq<real>, ghost u: Gts7Evaluation,
                         soutput: NrlmsiseOutput, output: NrlmsiseOutput) returns (r: Result<()>)
      requires Valid() && |sw| == 24 && |swc| == 24 && Staged(u, sw, soutput)
      requires output.Valid() && output.d != output.t && Foreign(output.d) && Foreign(output.t)
      requires output.d != soutput.d && output.t != soutput.t && output.t != soutput.d
      modifies this`tables, this`dd, tn2, tgn2, tn3, tgn3, output.d, output.t
      ensures Valid()
      ensures Delivered(Gtd7Below(m, old(State()), u, c, alt, sw, swc), r, output)
    {
      hide LowerAtmosphere;
      output.t[0], output.t[1] := soutput.t[0], soutput.t[1];
      if alt >= MesosphereTop {
        Fill(output.d, soutput.d[..]);
        return Success(());
      }
      r := EvaluateLower(m, c, alt, sw, swc, u.th, soutput.d[..], output);
    }

    // ------------------------------------------------------------ gtd7d

    /** `gtd7d`: `gtd7`, then the mass density `d[5]` recomputed to count
        anomalous oxygen, divided by 1000 when switch 0 selects metric
        units. */
    method Gtd7d(m: Math, input: NrlmsiseInput, flags: NrlmsiseConfig, output: NrlmsiseOutput) returns (r: Result<()>)
      requires Valid() && input.Valid() && flags.Valid() && output.Valid() && Apart(input, flags, output)
      modifies this, tn1, tgn1, tn2, tgn2, tn3, tgn3, flags.sw, flags.swc, output.d, output.t, input`alt
      ensures Valid()
      ensures flags.sw[..] == SwitchWeights(flags.switches) && flags.swc[..] == CrossWeights(flags.switches)
      ensures Delivered(Gtd7dSpec(m, old(State()), ConditionsOf(input), old(input.alt), flags.switches), r, output)
      ensures r.Success? ==> input.alt == old(input.alt)
    {
      hide Gtd7Spec;
      r := Gtd7(m, input, flags, output);
      if r.Failure? {
        return;
      }
      MetricWeight(flags.switches);
      RecountMass(output.d, flags.sw[0] != 0.0);
    }

    // ------------------------------------------------------------- ghp7

    /** `r` reports the outcome `g` of a `ghp7` search: the same error, or
        the altitude found in `input.alt` and the evaluation there as
        `Delivered` states it. */
    ghost predicate Answered(g: Result<(real, Gtd7Evaluation)>, r: Result<()>, input: NrlmsiseInput, output: NrlmsiseOutput)
      requires Valid()
      reads this, tn1, tgn1, tn2, tgn2, tn3, tgn3, output.d, output.t, input`alt
    {
      && (r.Failure? <==> g.Failure?) && (r.Failure? ==> r.error == g.error)
      && (g.Success? ==> input.alt == g.value.0 && Delivered(Success(g.value.1), r, output))
    }

    /** One pass of `ghp7`'s loop, the `l`-th: `gtd7` at `z`; done when it
        fails, when the pressure matches, or after the twelfth pass;
        otherwise the next altitude. */
    method Ghp7Step(m: Math, input: NrlmsiseInput, flags: NrlmsiseConfig, output: NrlmsiseOutput, pl: real, z: real, l: nat)
      returns (r: Result<()>, done: bool, next: real)
      requires Valid() && input.Valid() && flags.Valid() && output.Valid() && Apart(input, flags, output)
      requires 1 <= l <= IterationLimit
      modifies this, tn1, tgn1, tn2, tgn2, tn3, tgn3, flags.sw, flags.swc, output.d, output.t, input`alt
      ensures Valid()
      ensures var g := Ghp7From(m, old(State()), ConditionsOf(input), flags.switches, pl, z, l);
        && (done ==> Answered(g, r, input, output))
        && (!done ==> l < IterationLimit && g == Ghp7From(m, State(), ConditionsOf(input), flags.switches, pl, next, l + 1))
    {
      hide Gtd7Spec, Ghp7From, Ghp7After;
      ghost var e, c := State(), ConditionsOf(input);
      Ghp7FromSteps(m, e, c, flags.switches, pl, z, l);
      input.alt := z;
      r := Gtd7(m, input, flags, output);
      if r.Failure? {
        return r, true, z;
      }
      ghost var v := Gtd7Spec(m, e, c, z, flags.switches).value;
      r, done, next := Ghp7Judge(m, input, output, c, flags.switches, flags.sw[0] != 0.0, pl, z, l, v);
    }

    /** The test at the end of the `l`-th pass of `ghp7`, once `gtd7` has
        delivered `v` at `z`: the pressure it implies against `pl`, the
        pass count against twelve, and otherwise the next altitude. */
    method Ghp7Judge(m: Math, input: NrlmsiseInput, output: NrlmsiseOutput, ghost c: Conditions, ghost switches: seq<int>,
                     metric: bool, pl: real, z: real, l: nat, ghost v: Gtd7Evaluation)
      returns (r: Result<()>, done: bool, next: real)
      requires Valid() && output.Valid() && |c.apA| == 7 && |switches| == 24 && 1 <= l <= IterationLimit
      requires metric == Metric(switches) && input.alt == z
      requires |v.d| == 9 && |v.t| == 2 && MassConsistent(v.d, metric) && Delivered(Success(v), Success(()), output)
      ensures var g := Ghp7After(m, c, switches, pl, z, l, v);
        && (done ==> Answered(g, r, input, output))
        && (!done ==> l < IterationLimit && g == Ghp7From(m, State(), c, switches, pl, next, l + 1))
    {
      var diff := PressureError(m, pl, output.d[..], output.t[..], metric);
      if Magnitude(m, diff) < PressureTolerance {
        return Success(()), true, z;
      }
      if l == IterationLimit {
        return Failure(MathmaticalError), true, z;
      }
      next := NextAltitude(m, gsurf, re, z, l, diff, output.t[1], MeanMass(m, output.d[..], metric));
      done := false;
      r := Success(());
    }

    /** `ghp7`: the altitude at which the pressure is `press` (mb), left in
        `input.alt` with the evaluation there in `output`; from a first
        guess for the latitude and day of year, at most twelve `gtd7`
        evaluations. */
    method Ghp7(m: Math, input: NrlmsiseInput, flags: NrlmsiseConfig, output: NrlmsiseOutput, press: real) returns (r: Result<()>)
      requires Valid() && input.Valid() && flags.Valid() && output.Valid() && Apart(input, flags, output)
      modifies this, tn1, tgn1, tn2, tgn2, tn3, tgn3, flags.sw, flags.swc, output.d, output.t, input`alt
      ensures Valid()
      ensures Answered(Ghp7Spec(m, old(State()), ConditionsOf(input), input.doy, flags.switches, press), r, input, output)
    {
      hide Ghp7Spec, Ghp7From, Ghp7After, Gtd7Spec, Answered;
      Ghp7SpecSteps(m, State(), ConditionsOf(input), input.doy, flags.switches, press);
      var pl := m.log10(press);
      var z := InitialAltitude(m, pl, input.gLat, input.doy);
      ghost var target := Ghp7From(m, State(), ConditionsOf(input), flags.switches, pl, z, 1);
      var l := 0;
      var done := false;
      r := Success(());
      while !done
        invariant Valid() && input.Valid() && flags.Valid() && output.Valid() && Apart(input, flags, output)
        invariant 0 <= l <= IterationLimit
        invariant !done ==> l < IterationLimit && target == Ghp7From(m, State(), ConditionsOf(input), flags.switches, pl, z, l + 1)
        invariant done ==> Answered(target, r, input, output)
        decreases IterationLimit - l
      {
        l := l + 1;
        r, done, z := Ghp7Step(m, input, flags, output, pl, z, l);
      }
    }
  }
}
