/** The species densities of the thermosphere (`gts7`, one block per gas).

    Every gas starts from its diffusive-equilibrium density (`densu` at the
    altitude). While the mixing switch is on and the altitude is below the
    gas's ceiling, `gts7` also computes the density of the fully mixed
    atmosphere, combines the two with `dnet` and multiplies by the gas's
    corrections (mixing ratio at the ground, chemistry, departure from
    equilibrium). N2 always computes its turbopause density `b28`, which the
    ground-ratio corrections of the other gases read. Anomalous oxygen has a
    profile of its own.

    Below the joining altitude every `densu` call writes the joining slots
    `tn1[0]`/`tgn1[0]` of the engine's node arrays before it reads them. The
    functions here are stated on the profile, which holds only the nodes
    below the joining one; the methods run on the node arrays and are proved
    equal to the functions, with the slots they leave behind. */
module MsisSpecies {
  import opened Numerics
  import opened MsisFunctions
  import opened MsisProfiles

  // ------------------------------------------------------------ profile

  /** What every `densu` call of one `gts7` evaluation shares: gravity and
      effective radius, the exospheric and lower-boundary temperatures, the
      lower-boundary altitude `zlb`, the temperature shape `s2`, the spline
      heights `zn1` (the first is the joining altitude), the node
      temperatures `tnLow` under the joining node (`tn1[1..]`) and the
      gradient `tgnLow` at the lowest node (`tgn1[1]`). */
  datatype Thermosphere = Thermosphere(gsurf: real, re: real, tinf: real, tlb: real, zlb: real, s2: real,
                                       zn1: seq<real>, tnLow: seq<real>, tgnLow: real)

  predicate Fits(th: Thermosphere)
  {
    2 <= |th.zn1| == |th.tnLow| + 1
  }

  /** `densu` on the profile `th`. Its joining slots are written before they
      are read, so the placeholders here are never used (see
      `DensuIgnoresJoiningSlots`). */
  function DensuAt(m: Math, th: Thermosphere, alt: real, dlb: real, xm: real, alpha: real): (r: (Result<real>, real))
    requires Fits(th)
    ensures r.0.Failure? ==> r.0.error == MathmaticalError && alt < th.zn1[0]
    ensures alt >= th.zn1[0] ==> r.1 == BatesTemperature(m, th.tinf, th.tlb, th.s2, Zeta(m, th.re, alt, th.zlb))
  {
    DensuSpec(m, th.gsurf, th.re, alt, dlb, th.tinf, th.tlb, xm, alpha, th.zlb, th.s2,
              th.zn1, [0.0] + th.tnLow, [0.0, th.tgnLow])
  }

  /** The node arrays' contents agree with the profile below the joining
      node. */
  predicate OnNodes(th: Thermosphere, tn1: seq<real>, tgn1: seq<real>)
  {
    Fits(th) && |tn1| == |th.zn1| && |tgn1| == 2 && tn1[1..] == th.tnLow && tgn1[1] == th.tgnLow
  }

  lemma SameExceptHead(a: seq<real>, b: seq<real>, x: real)
    requires 1 <= |a| == |b| && a[1..] == b[1..]
    ensures a[0 := x] == b[0 := x]
  {
    assert a[0 := x] == [x] + a[1..];
    assert b[0 := x] == [x] + b[1..];
  }

  /** `densu` on node arrays that agree with the profile below the joining
      node is `densu` on the profile, whatever the joining slots held. */
  lemma DensuIgnoresJoiningSlots(m: Math, th: Thermosphere, tn1: seq<real>, tgn1: seq<real>,
                                 alt: real, dlb: real, xm: real, alpha: real)
    requires OnNodes(th, tn1, tgn1)
    ensures DensuSpec(m, th.gsurf, th.re, alt, dlb, th.tinf, th.tlb, xm, alpha, th.zlb, th.s2, th.zn1, tn1, tgn1)
         == DensuAt(m, th, alt, dlb, xm, alpha)
  {
    var za := th.zn1[0];
    var tt := BatesTemperature(m, th.tinf, th.tlb, th.s2, Zeta(m, th.re, Max(alt, za), th.zlb));
    var g := JoiningGradient(m, th.re, th.tinf, tt, th.s2, th.zlb, za);
    SameExceptHead(tn1, [0.0] + th.tnLow, tt);
    SameExceptHead(tgn1, [0.0, th.tgnLow], g);
  }

  /** The temperature and gradient `densu` stores in the joining slots
      below the joining altitude: the Bates profile at that altitude. */
  function JoiningSlots(m: Math, th: Thermosphere): (real, real)
    requires Fits(th)
  {
    var za := th.zn1[0];
    var tt := BatesTemperature(m, th.tinf, th.tlb, th.s2, Zeta(m, th.re, za, th.zlb));
    (tt, JoiningGradient(m, th.re, th.tinf, tt, th.s2, th.zlb, za))
  }

  /** The joining slots after a `densu` call at `alt`. */
  function SlotsAfter(m: Math, th: Thermosphere, slots: (real, real), alt: real): (r: (real, real))
    requires Fits(th)
    ensures alt >= th.zn1[0] ==> r == slots
  {
    if alt < th.zn1[0] then JoiningSlots(m, th) else slots
  }

  /** The slots a `densu` call writes do not depend on its altitude: two
      calls leave what the lower one alone leaves. */
  lemma JoinedTwice(m: Math, th: Thermosphere, slots: (real, real), a: real, b: real)
    requires Fits(th)
    ensures SlotsAfter(m, th, SlotsAfter(m, th, slots, a), b) == SlotsAfter(m, th, slots, Min(a, b))
  {
  }

  // ------------------------------------------------------------- mixing

  /** The turbopause mixing of one gas: `b` is the density at the
      turbopause height, `dm` the mixed density at the altitude and `net`
      their combination with the diffusive density by `dnet`. */
  datatype Mixing = Mixing(net: real, b: real, dm: real)

  /** The mixed density carried from the turbopause density `dlb` down to
      `z` with the mean mass `xmm` and coefficient `alphaMix`, paired with
      `dlb`. */
  function CarriedAt(m: Math, th: Thermosphere, z: real, dlb: real, xmm: real, alphaMix: real): (r: Result<(real, real)>)
    requires Fits(th)
    ensures r.Failure? ==> r.error == MathmaticalError
    ensures r.Success? ==> r.value.0 == dlb && DensuAt(m, th, z, dlb, xmm, alphaMix).0 == Success(r.value.1)
  {
    var dm := DensuAt(m, th, z, dlb, xmm, alphaMix).0;
    if dm.Failure? then Failure(dm.error) else Success((dlb, dm.value))
  }

  /** The two `densu` calls of the mixing: the density `b` at the
      turbopause height `zh` for the mass difference `mass - xmm`, and the
      mixed density `dm` carried from there to `z`. */
  function TurbopauseAt(m: Math, th: Thermosphere, z: real, db: real,
                        mass: real, alpha: real, alphaMix: real, zh: real, xmm: real): (r: Result<(real, real)>)
    requires Fits(th)
    ensures r.Failure? ==> r.error == MathmaticalError
    ensures r.Success? ==> DensuAt(m, th, zh, db, mass - xmm, alpha - 1.0).0 == Success(r.value.0)
  {
    var b := DensuAt(m, th, zh, db, mass - xmm, alpha - 1.0).0;
    if b.Failure? then Failure(b.error) else CarriedAt(m, th, z, b.value, xmm, alphaMix)
  }

  /** Mixing of a gas of mass `mass` with diffusive density `d` at `z`: the
      turbopause densities, then `dnet` with scale `zhm`. */
  function MixingAt(m: Math, th: Thermosphere, z: real, d: real, db: real,
                    mass: real, alpha: real, alphaMix: real, zh: real, xmm: real, zhm: real): (r: Result<Mixing>)
    requires Fits(th)
    ensures r.Failure? ==> r.error == MathmaticalError
  {
    var bd := TurbopauseAt(m, th, z, db, mass, alpha, alphaMix, zh, xmm);
    if bd.Failure? then Failure(bd.error)
    else
      var net := Dnet(m, d, bd.value.1, zhm, xmm, mass);
      if net.Failure? then Failure(net.error) else Success(Mixing(net.value, bd.value.0, bd.value.1))
  }

  /** Mixing succeeds only on positive densities, and then the combined
      density is positive and lies at the diffusive or the mixed end when
      `dnet`'s exponent is past its cut-offs. */
  lemma MixingIsPositive(m: Math, th: Thermosphere, z: real, d: real, db: real,
                         mass: real, alpha: real, alphaMix: real, zh: real, xmm: real, zhm: real)
    requires Lawful(m) && Fits(th)
    requires MixingAt(m, th, z, d, db, mass, alpha, alphaMix, zh, xmm, zhm).Success?
    ensures var x := MixingAt(m, th, z, d, db, mass, alpha, alphaMix, zh, xmm, zhm).value;
      && d > 0.0 && x.dm > 0.0 && x.net > 0.0
      && (DnetExponent(m, d, x.dm, zhm, xmm, mass) < -10.0 ==> x.net == d)
      && (DnetExponent(m, d, x.dm, zhm, xmm, mass) > 10.0 ==> x.net == x.dm)
  {
    var x := MixingAt(m, th, z, d, db, mass, alpha, alphaMix, zh, xmm, zhm).value;
    assert Dnet(m, d, x.dm, zhm, xmm, mass) == Success(x.net);
    DnetPositive(m, d, x.dm, zhm, xmm, mass);
  }

  // -------------------------------------------------------- corrections

  /** A density times a correction factor. */
  function Scaled(x: real, f: real): real
  {
    x * f
  }

  /** A correction factor `gts7` applies to a mixed density. */
  datatype Correction =
    | NoCorrection
      /** `ccor` with `log(b28 * ratio / b)`: the mixing ratio at the ground. */
    | GroundRatio(ratio: real, hc: real, zc: real)
      /** `ccor` with a fixed `r`: chemistry. */
    | Chemistry(r: real, hc: real, zc: real)
      /** `ccor2` with a fixed `r`. */
    | TwoScale(r: real, hc: real, zc: real, hc2: real)

  function CorrectionFactor(m: Math, c: Correction, z: real, b28: real, b: real): real
  {
    match c
    case NoCorrection => 1.0
    case GroundRatio(ratio, hc, zc) => Ccor(m, z, m.log(Div(m, b28 * ratio, b)), hc, zc)
    case Chemistry(r, hc, zc) => Ccor(m, z, r, hc, zc)
    case TwoScale(r, hc, zc, hc2) => Ccor2(m, z, r, hc, zc, hc2)
  }

  /** Every correction is a positive factor. */
  lemma CorrectionIsPositive(m: Math, c: Correction, z: real, b28: real, b: real)
    requires Lawful(m)
    ensures CorrectionFactor(m, c, z, b28, b) > 0.0
  {
    match c
    case NoCorrection =>
    case GroundRatio(ratio, hc, zc) => CcorSaturates(m, z, m.log(Div(m, b28 * ratio, b)), hc, zc);
    case Chemistry(r, hc, zc) => CcorSaturates(m, z, r, hc, zc);
    case TwoScale(r, hc, zc, hc2) =>
  }

  // ---------------------------------------------------------- the gases

  /** How `gts7` treats one of He, O, O2, Ar, H, N: its mass and thermal
      diffusion coefficient, whether it is mixed at this altitude (the mixing
      switch is on and the altitude is under its ceiling), its turbopause
      height, the two corrections of the mixed density, and a departure
      correction applied whenever the mixing switch is on (O2 only). */
  datatype Recipe = Recipe(mass: real, alpha: real, mixed: bool, zh: real,
                           first: Correction, second: Correction, departure: Correction)

  /** A gas's density: diffusive only, or after mixing (with the mixing
      values the engine keeps). */
  datatype Outcome = Diffused(density: real) | Mixed(density: real, mix: Mixing)

  /** The density of a mixed gas: the `dnet` combination times its two
      corrections. */
  function MixedDensity(m: Math, x: Mixing, rc: Recipe, z: real, b28: real): real
  {
    Scaled(Scaled(x.net, CorrectionFactor(m, rc.first, z, b28, x.b)), CorrectionFactor(m, rc.second, z, b28, x.b))
  }

  /** The outcome after the departure correction, applied when the mixing
      switch is on. */
  function Departed(m: Math, rc: Recipe, z: real, b28: real, o: Outcome, departs: bool): Outcome
  {
    var f := if departs then CorrectionFactor(m, rc.departure, z, b28, if o.Mixed? then o.mix.b else 0.0) else 1.0;
    o.(density := Scaled(o.density, f))
  }

  /** The density of a gas with recipe `rc`; `b28` is the turbopause density
      of N2, `zhm` the mixing scale, `departs` whether the mixing switch is
      on. */
  function SpeciesDensity(m: Math, th: Thermosphere, z: real, db: real,
                          b28: real, xmm: real, zhm: real, rc: Recipe, departs: bool): (r: Result<Outcome>)
    requires Fits(th)
    ensures r.Failure? ==> r.error == MathmaticalError
    ensures r.Success? ==> (r.value.Mixed? <==> rc.mixed)
  {
    var d := DensuAt(m, th, z, db, rc.mass, rc.alpha).0;
    if d.Failure? then Failure(d.error)
    else if !rc.mixed then Success(Departed(m, rc, z, b28, Diffused(d.value), departs))
    else
      var x := MixingAt(m, th, z, d.value, db, rc.mass, rc.alpha, 0.0, rc.zh, xmm, zhm);
      if x.Failure? then Failure(x.error)
      else Success(Departed(m, rc, z, b28, Mixed(MixedDensity(m, x.value, rc, z, b28), x.value), departs))
  }

  /** With the mixing switch off every gas keeps its diffusive density. */
  lemma UnmixedIsDiffusive(m: Math, th: Thermosphere, z: real, db: real,
                           b28: real, xmm: real, zhm: real, rc: Recipe)
    requires Fits(th) && !rc.mixed
    ensures var d := DensuAt(m, th, z, db, rc.mass, rc.alpha).0;
      SpeciesDensity(m, th, z, db, b28, xmm, zhm, rc, false)
        == (if d.Success? then Success(Diffused(d.value)) else Failure(d.error))
  {
  }

  /** The corrected density of a mixed gas is positive. */
  lemma MixedDensityIsPositive(m: Math, x: Mixing, rc: Recipe, z: real, b28: real)
    requires Lawful(m) && x.net > 0.0
    ensures MixedDensity(m, x, rc, z, b28) > 0.0
  {
    var f1 := CorrectionFactor(m, rc.first, z, b28, x.b);
    var f2 := CorrectionFactor(m, rc.second, z, b28, x.b);
    CorrectionIsPositive(m, rc.first, z, b28, x.b);
    CorrectionIsPositive(m, rc.second, z, b28, x.b);
    PositiveProduct(x.net, f1);
    PositiveProduct(Scaled(x.net, f1), f2);
  }

  /** The departure correction keeps a positive mixed density positive. */
  lemma DepartedMixedIsPositive(m: Math, x: Mixing, rc: Recipe, z: real, b28: real, departs: bool)
    requires Lawful(m) && x.net > 0.0
    ensures Departed(m, rc, z, b28, Mixed(MixedDensity(m, x, rc, z, b28), x), departs).density > 0.0
  {
    var md := MixedDensity(m, x, rc, z, b28);
    MixedDensityIsPositive(m, x, rc, z, b28);
    CorrectionIsPositive(m, rc.departure, z, b28, x.b);
    var f := if departs then CorrectionFactor(m, rc.departure, z, b28, x.b) else 1.0;
    PositiveProduct(md, f);
  }

  /** How a successful mixed density is made up: the diffusive density, the
      mixing on it, the corrections. */
  lemma MixedOutcome(m: Math, th: Thermosphere, z: real, db: real,
                     b28: real, xmm: real, zhm: real, rc: Recipe, departs: bool)
    requires Fits(th) && rc.mixed
    requires SpeciesDensity(m, th, z, db, b28, xmm, zhm, rc, departs).Success?
    ensures DensuAt(m, th, z, db, rc.mass, rc.alpha).0.Success?
    ensures var d := DensuAt(m, th, z, db, rc.mass, rc.alpha).0.value;
      var x := MixingAt(m, th, z, d, db, rc.mass, rc.alpha, 0.0, rc.zh, xmm, zhm);
      && x.Success?
      && SpeciesDensity(m, th, z, db, b28, xmm, zhm, rc, departs).value
         == Departed(m, rc, z, b28, Mixed(MixedDensity(m, x.value, rc, z, b28), x.value), departs)
  {
  }

  /** A mixed gas's density is positive. */
  lemma MixedIsPositive(m: Math, th: Thermosphere, z: real, db: real,
                        b28: real, xmm: real, zhm: real, rc: Recipe, departs: bool)
    requires Lawful(m) && Fits(th) && rc.mixed
    requires SpeciesDensity(m, th, z, db, b28, xmm, zhm, rc, departs).Success?
    ensures SpeciesDensity(m, th, z, db, b28, xmm, zhm, rc, departs).value.density > 0.0
  {
    MixedOutcome(m, th, z, db, b28, xmm, zhm, rc, departs);
    var d := DensuAt(m, th, z, db, rc.mass, rc.alpha).0.value;
    var x := MixingAt(m, th, z, d, db, rc.mass, rc.alpha, 0.0, rc.zh, xmm, zhm).value;
    MixingIsPositive(m, th, z, d, db, rc.mass, rc.alpha, 0.0, rc.zh, xmm, zhm);
    DepartedMixedIsPositive(m, x, rc, z, b28, departs);
  }

  /** N2: its turbopause density `b28` is computed whatever the switches,
      and both of its mixing calls use its own coefficient `alpha`. The
      result carries `b28`. */
  function NitrogenDensity(m: Math, th: Thermosphere, z: real, db28: real,
                           alpha: real, zh28: real, xmm: real, zhm28: real, mixed: bool): (r: Result<(Outcome, real)>)
    requires Fits(th)
    ensures r.Failure? ==> r.error == MathmaticalError
    ensures r.Success? ==> DensuAt(m, th, zh28, db28, 28.0 - xmm, alpha - 1.0).0 == Success(r.value.1)
    ensures r.Success? && !mixed ==> r.value.0.Diffused? && DensuAt(m, th, z, db28, 28.0, alpha).0 == Success(r.value.0.density)
    ensures r.Success? && mixed ==> r.value.0.Mixed? && r.value.0.mix.b == r.value.1
  {
    var d := DensuAt(m, th, z, db28, 28.0, alpha).0;
    var b28 := DensuAt(m, th, zh28, db28, 28.0 - xmm, alpha - 1.0).0;
    if d.Failure? then Failure(d.error)
    else if b28.Failure? then Failure(b28.error)
    else if !mixed then Success((Diffused(d.value), b28.value))
    else
      var x := MixingAt(m, th, z, d.value, db28, 28.0, alpha, alpha, zh28, xmm, zhm28);
      if x.Failure? then Failure(x.error) else Success((Mixed(x.value.net, x.value), b28.value))
  }

  // --------------------------------------------------- anomalous oxygen

  /** The height factor of anomalous oxygen, `exp(-zsht/zsho * (exp(-(z -
      zmho)/zsht) - 1))`. */
  function HotOxygenFactor(m: Math, z: real, zsht: real, zmho: real, zsho: real): real
  {
    m.exp(HotOxygenExponent(m, z, zsht, zmho, zsho))
  }

  /** The exponent of `HotOxygenFactor`. */
  function HotOxygenExponent(m: Math, z: real, zsht: real, zmho: real, zsho: real): real
  {
    Div(m, -zsht, zsho) * (m.exp(Div(m, -(z - zmho), zsht)) - 1.0)
  }

  /** The profile of anomalous oxygen: exospheric and lower-boundary
      temperature both `tho`. */
  function HotProfile(th: Thermosphere, tho: real): (h: Thermosphere)
    ensures Fits(h) == Fits(th) && h.zn1 == th.zn1 && h.tnLow == th.tnLow && h.tgnLow == th.tgnLow
  {
    th.(tinf := tho, tlb := tho)
  }

  /** Anomalous oxygen: `densu` on its own profile, times the height factor
      with scale height `scalh(zmho, 16, tho)`. */
  function AnomalousOxygen(m: Math, th: Thermosphere, z: real, db16h: real,
                           tho: real, alpha: real, zsht: real, zmho: real): (r: Result<real>)
    requires Fits(th)
    ensures r.Failure? ==> r.error == MathmaticalError
  {
    var d := DensuAt(m, HotProfile(th, tho), z, db16h, 16.0, alpha).0;
    if d.Failure? then Failure(d.error)
    else Success(Scaled(d.value, HotOxygenFactor(m, z, zsht, zmho, Scalh(m, th.gsurf, th.re, zmho, 16.0, tho))))
  }

  /** The height factor is 1 at the reference height. */
  lemma HotOxygenFactorAtReference(m: Math, zsht: real, zmho: real, zsho: real)
    requires Lawful(m) && zsht != 0.0
    ensures HotOxygenFactor(m, zmho, zsht, zmho, zsho) == 1.0
  {
    var inner := Div(m, -(zmho - zmho), zsht);
    assert inner * zsht == 0.0;
    assert HotOxygenExponent(m, zmho, zsht, zmho, zsho) == 0.0;
  }

  /** At its reference height `zmho` anomalous oxygen has exactly the
      diffusive density of its own profile. */
  lemma AnomalousOxygenAtReference(m: Math, th: Thermosphere, db16h: real,
                                   tho: real, alpha: real, zsht: real, zmho: real)
    requires Lawful(m) && Fits(th) && zsht != 0.0
    ensures AnomalousOxygen(m, th, zmho, db16h, tho, alpha, zsht, zmho)
         == DensuAt(m, HotProfile(th, tho), zmho, db16h, 16.0, alpha).0
  {
    HotOxygenFactorAtReference(m, zsht, zmho, Scalh(m, th.gsurf, th.re, zmho, 16.0, tho));
  }

  // ------------------------------------------------ on the engine's nodes

  /** The joining slots of the node arrays. */
  function Slots(tn1: array<real>, tgn1: array<real>): (real, real)
    requires tn1.Length >= 1 && tgn1.Length >= 1
    reads tn1, tgn1
  {
    (tn1[0], tgn1[0])
  }

  /** `densu` on the node arrays: the result is `densu` on the profile, and
      the joining slots are written below the joining altitude. */
  method DensuOnNodes(m: Math, th: Thermosphere, tn1: array<real>, tgn1: array<real>,
                      alt: real, dlb: real, xm: real, alpha: real) returns (r: Result<real>, tz: real)
    requires OnNodes(th, tn1[..], tgn1[..]) && tn1 != tgn1
    modifies tn1, tgn1
    ensures r == DensuAt(m, th, alt, dlb, xm, alpha).0
    ensures tz == DensuAt(m, th, alt, dlb, xm, alpha).1
    ensures OnNodes(th, tn1[..], tgn1[..])
    ensures Slots(tn1, tgn1) == SlotsAfter(m, th, old(Slots(tn1, tgn1)), alt)
  {
    DensuIgnoresJoiningSlots(m, th, tn1[..], tgn1[..], alt, dlb, xm, alpha);
    r, tz := Densu(m, th.gsurf, th.re, alt, dlb, th.tinf, th.tlb, xm, alpha, th.zlb, th.s2, th.zn1, tn1, tgn1);
  }

  /** The writes of a `densu` call at `alt` into the joining slots, without
      its result. */
  method JoinNodes(m: Math, th: Thermosphere, tn1: array<real>, tgn1: array<real>, alt: real)
    requires OnNodes(th, tn1[..], tgn1[..]) && tn1 != tgn1
    modifies tn1, tgn1
    ensures OnNodes(th, tn1[..], tgn1[..])
    ensures Slots(tn1, tgn1) == SlotsAfter(m, th, old(Slots(tn1, tgn1)), alt)
  {
    if alt < th.zn1[0] {
      var slots := JoiningSlots(m, th);
      tn1[0] := slots.0;
      tgn1[0] := slots.1;
      assert tn1[..][1..] == old(tn1[..])[1..];
    }
  }

  /** One of He, O, O2, Ar, H, N on the node arrays: the density, and the
      slots its `densu` calls leave (the diffusive one at `z`, then the
      mixing ones at the turbopause height and at `z`). A failing `densu`
      has already written the slots, so the calls it cuts off would not
      change them. */
  method SpeciesOnNodes(m: Math, th: Thermosphere, tn1: array<real>, tgn1: array<real>, z: real, db: real,
                        b28: real, xmm: real, zhm: real, rc: Recipe, departs: bool) returns (r: Result<Outcome>)
    requires OnNodes(th, tn1[..], tgn1[..]) && tn1 != tgn1
    modifies tn1, tgn1
    ensures r == SpeciesDensity(m, th, z, db, b28, xmm, zhm, rc, departs)
    ensures OnNodes(th, tn1[..], tgn1[..])
    ensures Slots(tn1, tgn1) == SlotsAfter(m, th, old(Slots(tn1, tgn1)), if rc.mixed then Min(z, rc.zh) else z)
  {
    r := SpeciesDensity(m, th, z, db, b28, xmm, zhm, rc, departs);
    ghost var start := Slots(tn1, tgn1);
    JoinNodes(m, th, tn1, tgn1, z);
    if rc.mixed {
      JoinNodes(m, th, tn1, tgn1, rc.zh);
      JoinNodes(m, th, tn1, tgn1, z);
      JoinedTwice(m, th, start, z, rc.zh);
      JoinedTwice(m, th, start, Min(z, rc.zh), z);
    }
  }

  /** N2 on the node arrays: its `densu` calls run at `z`, at the turbopause
      height (always, since `b28` serves the other gases) and, when mixed, at
      `z` again. */
  method NitrogenOnNodes(m: Math, th: Thermosphere, tn1: array<real>, tgn1: array<real>, z: real, db28: real,
                         alpha: real, zh28: real, xmm: real, zhm28: real, mixed: bool) returns (r: Result<(Outcome, real)>)
    requires OnNodes(th, tn1[..], tgn1[..]) && tn1 != tgn1
    modifies tn1, tgn1
    ensures r == NitrogenDensity(m, th, z, db28, alpha, zh28, xmm, zhm28, mixed)
    ensures OnNodes(th, tn1[..], tgn1[..])
    ensures Slots(tn1, tgn1) == SlotsAfter(m, th, old(Slots(tn1, tgn1)), Min(z, zh28))
  {
    r := NitrogenDensity(m, th, z, db28, alpha, zh28, xmm, zhm28, mixed);
    ghost var start := Slots(tn1, tgn1);
    JoinNodes(m, th, tn1, tgn1, z);
    JoinNodes(m, th, tn1, tgn1, zh28);
    JoinedTwice(m, th, start, z, zh28);
    if mixed {
      JoinNodes(m, th, tn1, tgn1, z);
      JoinedTwice(m, th, start, Min(z, zh28), z);
    }
  }

  /** Anomalous oxygen on the node arrays: its one `densu` call writes the
      joining slots of its own profile. */
  method AnomalousOxygenOnNodes(m: Math, th: Thermosphere, tn1: array<real>, tgn1: array<real>, z: real,
                                db16h: real, tho: real, alpha: real, zsht: real, zmho: real) returns (r: Result<real>)
    requires OnNodes(th, tn1[..], tgn1[..]) && tn1 != tgn1
    modifies tn1, tgn1
    ensures r == AnomalousOxygen(m, th, z, db16h, tho, alpha, zsht, zmho)
    ensures OnNodes(th, tn1[..], tgn1[..])
    ensures Slots(tn1, tgn1) == SlotsAfter(m, HotProfile(th, tho), old(Slots(tn1, tgn1)), z)
  {
    var d, _ := DensuOnNodes(m, HotProfile(th, tho), tn1, tgn1, z, db16h, 16.0, alpha);
    if d.Failure? {
      return Failure(d.error);
    }
    var zsho := Scalh(m, th.gsurf, th.re, zmho, 16.0, tho);
    r := Success(Scaled(d.value, HotOxygenFactor(m, z, zsht, zmho, zsho)));
  }
}
