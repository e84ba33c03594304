/** The vertical profiles of the engine: `densu` (Bates temperature profile
    above the joining altitude `zn1[0]`, spline profile below it) and `densm`
    (spline profiles of the mesosphere and the troposphere/stratosphere).

    Each profile sets up the spline nodes in local buffers (the inverse
    temperatures over the normalised geopotential heights of the nodes),
    computes the second derivatives with `spline`, evaluates the inverse
    temperature with `splint` and, for a density, integrates it with
    `splini`. The functions here are the specifications; the methods do the
    work on arrays as the engine does. `gsurf` and `re` are the engine's
    members, passed in. */
module MsisProfiles {
  import opened Numerics
  import opened SplineUtil
  import opened MsisFunctions

  /** Largest exponent the profiles let through (`expl` is capped at 50). */
  const ExponentCap: real := 50.0

  /** `expl` after `if (expl > 50.0) expl = 50.0`. */
  function Capped(e: real): (r: real)
    ensures r <= ExponentCap && (r == e || r == ExponentCap)
  {
    if e > ExponentCap then ExponentCap else e
  }

  // --------------------------------------------------------- spline nodes

  /** Normalised geopotential height of each node: zeta of the node above
      the first node, over that of the last node (`zgdif`). */
  function Abscissae(m: Math, re: real, zn: seq<real>, zgdif: real): (xs: seq<real>)
    requires 1 <= |zn|
    ensures |xs| == |zn|
  {
    seq(|zn|, k requires 0 <= k < |zn| => Div(m, Zeta(m, re, zn[k], zn[0]), zgdif))
  }

  /** Inverse temperature of each node. */
  function Reciprocals(m: Math, tn: seq<real>): (ys: seq<real>)
    ensures |ys| == |tn|
  {
    seq(|tn|, k requires 0 <= k < |tn| => Div(m, 1.0, tn[k]))
  }

  /** Slope of the inverse temperature at the first node, from the
      temperature gradient `tgn0` there. */
  function StartSlope(m: Math, tgn0: real, t1: real, zgdif: real): real
  {
    Div(m, -tgn0, t1 * t1) * zgdif
  }

  /** Slope at the last node, corrected for the gravity ratio of the two end
      nodes. */
  function EndSlope(m: Math, re: real, tgn1: real, t2: real, z1: real, z2: real, zgdif: real): real
  {
    Div(m, -tgn1, t2 * t2) * zgdif * m.pow(Div(m, re + z2, re + z1), 2.0)
  }

  /** A spline profile: nodes, second derivatives, the normalised abscissa
      `x` of the altitude and the normalising height `zgdif`. */
  datatype Segment = Segment(xs: seq<real>, ys: seq<real>, y2: seq<real>, x: real, zgdif: real)

  /** The profile through nodes `zn` with temperatures `tn` and end
      gradients `tgn`, at altitude `z`. */
  function SegmentOf(m: Math, re: real, zn: seq<real>, tn: seq<real>, tgn: seq<real>, z: real): (s: Segment)
    requires 2 <= |zn| == |tn| && |tgn| == 2
    ensures |s.xs| == |zn| && |s.ys| == |zn| && |s.y2| == |zn|
  {
    var n := |zn|;
    var zgdif := Zeta(m, re, zn[n - 1], zn[0]);
    var xs := Abscissae(m, re, zn, zgdif);
    var ys := Reciprocals(m, tn);
    var yd1 := StartSlope(m, tgn[0], tn[0], zgdif);
    var yd2 := EndSlope(m, re, tgn[1], tn[n - 1], zn[0], zn[n - 1], zgdif);
    Segment(xs, ys, SecondDerivatives(m, xs, ys, yd1, yd2), Div(m, Zeta(m, re, z, zn[0]), zgdif), zgdif)
  }

  /** Above the Earth's centre and between distinct end nodes, the
      normalised abscissae run from 0 at the first node to 1 at the last. */
  lemma AbscissaeSpanUnitInterval(m: Math, re: real, zn: seq<real>)
    requires 2 <= |zn|
    requires re + zn[0] > 0.0 && re + zn[|zn| - 1] > 0.0 && zn[|zn| - 1] != zn[0]
    ensures Abscissae(m, re, zn, Zeta(m, re, zn[|zn| - 1], zn[0]))[0] == 0.0
    ensures Abscissae(m, re, zn, Zeta(m, re, zn[|zn| - 1], zn[0]))[|zn| - 1] == 1.0
  {
    var zgdif := Zeta(m, re, zn[|zn| - 1], zn[0]);
    ZetaSign(m, re, zn[|zn| - 1], zn[0]);
    assert zgdif != 0.0;
    assert (zn[0] - zn[0]) * (re + zn[0]) == 0.0;
    assert Zeta(m, re, zn[0], zn[0]) == 0.0;
  }

  /** The node buffers of a profile: abscissae and inverse temperatures. */
  method FillNodes(m: Math, re: real, zn: seq<real>, tn: seq<real>, zgdif: real)
    returns (xs: array<real>, ys: array<real>)
    requires 1 <= |zn| == |tn|
    ensures fresh(xs) && fresh(ys)
    ensures xs[..] == Abscissae(m, re, zn, zgdif) && ys[..] == Reciprocals(m, tn)
  {
    var n := |zn|;
    xs := new real[n];
    ys := new real[n];
    ghost var wantX := Abscissae(m, re, zn, zgdif);
    ghost var wantY := Reciprocals(m, tn);
    var k := 0;
    while k < n
      invariant 0 <= k <= n
      invariant xs[..k] == wantX[..k]
      invariant ys[..k] == wantY[..k]
    {
      xs[k] := Div(m, Zeta(m, re, zn[k], zn[0]), zgdif);
      ys[k] := Div(m, 1.0, tn[k]);
      k := k + 1;
    }
    assert xs[..] == xs[..n];
    assert ys[..] == ys[..n];
  }

  /** Fills the node buffers of a profile and its second derivatives. */
  method BuildSegment(m: Math, re: real, zn: seq<real>, tn: seq<real>, tgn: seq<real>, z: real)
    returns (xs: array<real>, ys: array<real>, y2: array<real>, x: real, zgdif: real)
    requires 2 <= |zn| == |tn| && |tgn| == 2
    ensures fresh(xs) && fresh(ys) && fresh(y2)
    ensures xs.Length == |zn| && ys.Length == |zn| && y2.Length == |zn|
    ensures Segment(xs[..], ys[..], y2[..], x, zgdif) == SegmentOf(m, re, zn, tn, tgn, z)
  {
    var n := |zn|;
    zgdif := Zeta(m, re, zn[n - 1], zn[0]);
    xs, ys := FillNodes(m, re, zn, tn, zgdif);
    y2 := new real[n];
    var yd1 := StartSlope(m, tgn[0], tn[0], zgdif);
    var yd2 := EndSlope(m, re, tgn[1], tn[n - 1], zn[0], zn[n - 1], zgdif);
    Spline(m, xs, ys, n, yd1, yd2, y2);
    assert xs[..n] == xs[..] && ys[..n] == ys[..] && y2[..n] == y2[..];
    x := Div(m, Zeta(m, re, z, zn[0]), zgdif);
  }

  // ----------------------------------------------------------------- densm

  /** Gravity at height `z` above the surface: `gsurf` over the squared
      ratio of the distances from the Earth's centre. */
  function Gravity(m: Math, gsurf: real, re: real, z: real): real
  {
    Div(m, gsurf, m.pow(1.0 + Div(m, z, re), 2.0))
  }

  /** The factor of the integrated inverse temperature in the hydrostatic
      exponent of a spline layer. */
  function LayerGamma(xm: real, glb: real, zgdif: real): real
  {
    xm * glb * zgdif / Rgas
  }

  /** `expl` of a spline layer: the integral of the inverse temperature
      times `gamm`, capped. */
  function LayerExponent(gamm: real, yi: real): (expl: real)
    ensures expl <= ExponentCap
  {
    Capped(gamm * yi)
  }

  /** Density of a `densm` layer at temperature `tz`, from `dens` at
      temperature `t1`. */
  function LayerDensity(m: Math, dens: real, t1: real, tz: real, expl: real): real
  {
    dens * Div(m, t1, tz) * m.exp(-expl)
  }

  /** Hydrostatic density at temperature `tz`, from `dens` at temperature
      `t1`: the temperature ratio raised to `power` times `exp(-expl)`. */
  function Hydrostatic(m: Math, dens: real, t1: real, tz: real, power: real, expl: real): real
  {
    dens * m.pow(Div(m, t1, tz), power) * m.exp(-expl)
  }

  /** One spline layer of `densm` on profile `s`, whose first node is at
      height `z1` with temperature `t1`: the temperature at the altitude
      and, when `xm` is not 0, the density carried down from `dens` at the
      first node by the hydrostatic integral of the inverse temperature. */
  function LayerOf(m: Math, gsurf: real, re: real, s: Segment, z1: real, t1: real, xm: real, dens: real): (r: Result<(real, real)>)
    requires 1 <= |s.xs| && |s.ys| == |s.xs| && |s.y2| == |s.xs|
    ensures r.Failure? ==> r.error == MathmaticalError
    ensures r.Success? && xm == 0.0 ==> r.value.0 == dens
  {
    var y :- Interpolate(s.xs, s.ys, s.y2, s.x);
    var tz := Div(m, 1.0, y);
    if xm != 0.0 then
      var gamm := LayerGamma(xm, Gravity(m, gsurf, re, z1), s.zgdif);
      var expl := LayerExponent(gamm, Integrate(m, s.xs, s.ys, s.y2, s.x));
      Success((LayerDensity(m, dens, t1, tz, expl), tz))
    else
      Success((dens, tz))
  }

  /** The layer through nodes `zn`, `tn`, `tgn` at altitude `z`. */
  function MesoLayer(m: Math, gsurf: real, re: real, zn: seq<real>, tn: seq<real>, tgn: seq<real>,
                     z: real, xm: real, dens: real): (r: Result<(real, real)>)
    requires 2 <= |zn| == |tn| && |tgn| == 2
  {
    LayerOf(m, gsurf, re, SegmentOf(m, re, zn, tn, tgn, z), zn[0], tn[0], xm, dens)
  }

  /** Evaluates one layer on the node buffers. */
  method LayerOnBuffers(m: Math, gsurf: real, re: real, xs: array<real>, ys: array<real>, y2: array<real>,
                        x: real, zgdif: real, z1: real, t1: real, xm: real, dens: real)
    returns (r: Result<(real, real)>)
    requires 1 <= xs.Length && ys.Length == xs.Length && y2.Length == xs.Length
    ensures r == LayerOf(m, gsurf, re, Segment(xs[..], ys[..], y2[..], x, zgdif), z1, t1, xm, dens)
  {
    var n := xs.Length;
    assert xs[..n] == xs[..] && ys[..n] == ys[..] && y2[..n] == y2[..];
    var y := Splint(xs, ys, y2, n, x);
    if y.Failure? {
      r := Failure(y.error);
      return;
    }
    var tz := Div(m, 1.0, y.value);
    if xm != 0.0 {
      var glb := Gravity(m, gsurf, re, z1);
      var gamm := LayerGamma(xm, glb, zgdif);
      var yi := Splini(m, xs, ys, y2, n, x);
      var expl := LayerExponent(gamm, yi);
      r := Success((LayerDensity(m, dens, t1, tz, expl), tz));
    } else {
      r := Success((dens, tz));
    }
  }

  /** Evaluates one layer on fresh node buffers. */
  method Layer(m: Math, gsurf: real, re: real, zn: seq<real>, tn: seq<real>, tgn: seq<real>,
               z: real, xm: real, dens: real) returns (r: Result<(real, real)>)
    requires 2 <= |zn| == |tn| && |tgn| == 2
    ensures r == MesoLayer(m, gsurf, re, zn, tn, tgn, z, xm, dens)
  {
    var xs, ys, y2, x, zgdif := BuildSegment(m, re, zn, tn, tgn, z);
    r := LayerOnBuffers(m, gsurf, re, xs, ys, y2, x, zgdif, zn[0], tn[0], xm, dens);
  }

  /** `densm`: temperature (`xm == 0`) or density below `zn2[0]` from the
      mesosphere profile (nodes `zn2`) and, below `zn3[0]`, the lower
      profile (nodes `zn3`); above `zn2[0]` the input density `d0` (or the
      input temperature `tz`) is returned as is. The second component is
      the value left in the caller's `tz`. */
  function DensmSpec(m: Math, gsurf: real, re: real, alt: real, d0: real, xm: real, tz: real,
                     zn3: seq<real>, tn3: seq<real>, tgn3: seq<real>,
                     zn2: seq<real>, tn2: seq<real>, tgn2: seq<real>): (r: (Result<real>, real))
    requires 2 <= |zn3| == |tn3| && |tgn3| == 2
    requires 2 <= |zn2| == |tn2| && |tgn2| == 2
    ensures alt > zn2[0] ==> r.1 == tz && r.0 == Success(if xm == 0.0 then tz else d0)
    ensures xm == 0.0 && r.0.Success? ==> r.0.value == r.1
    ensures r.0.Failure? ==> r.0.error == MathmaticalError
  {
    if alt > zn2[0] then (Success(if xm == 0.0 then tz else d0), tz)
    else
      var upper := MesoLayer(m, gsurf, re, zn2, tn2, tgn2, Max(alt, zn2[|zn2| - 1]), xm, d0);
      if upper.Failure? then (Failure(upper.error), tz)
      else if alt > zn3[0] then (Success(if xm == 0.0 then upper.value.1 else upper.value.0), upper.value.1)
      else
        var lower := MesoLayer(m, gsurf, re, zn3, tn3, tgn3, alt, xm, upper.value.0);
        if lower.Failure? then (Failure(lower.error), upper.value.1)
        else (Success(if xm == 0.0 then lower.value.1 else lower.value.0), lower.value.1)
  }

  /** `densm` on the engine's node arrays (read only). */
  method Densm(m: Math, gsurf: real, re: real, alt: real, d0: real, xm: real, tzIn: real,
               zn3: seq<real>, tn3: seq<real>, tgn3: seq<real>,
               zn2: seq<real>, tn2: seq<real>, tgn2: seq<real>) returns (r: Result<real>, tz: real)
    requires 2 <= |zn3| == |tn3| && |tgn3| == 2
    requires 2 <= |zn2| == |tn2| && |tgn2| == 2
    ensures (r, tz) == DensmSpec(m, gsurf, re, alt, d0, xm, tzIn, zn3, tn3, tgn3, zn2, tn2, tgn2)
  {
    tz := tzIn;
    if alt > zn2[0] {
      r := Success(if xm == 0.0 then tz else d0);
      return;
    }
    var z := if alt > zn2[|zn2| - 1] then alt else zn2[|zn2| - 1];
    var upper := Layer(m, gsurf, re, zn2, tn2, tgn2, z, xm, d0);
    if upper.Failure? {
      r := Failure(upper.error);
      return;
    }
    tz := upper.value.1;
    if alt > zn3[0] {
      r := Success(if xm == 0.0 then tz else upper.value.0);
      return;
    }
    var lower := Layer(m, gsurf, re, zn3, tn3, tgn3, alt, xm, upper.value.0);
    if lower.Failure? {
      r := Failure(lower.error);
      return;
    }
    tz := lower.value.1;
    r := Success(if xm == 0.0 then tz else lower.value.0);
  }

  // ----------------------------------------------------------------- densu

  /** Bates temperature at geopotential height `zg2` above `zlb`: `tlb` at
      the bottom, tending to `tinf` with rate `s2`. */
  function BatesTemperature(m: Math, tinf: real, tlb: real, s2: real, zg2: real): real
  {
    tinf - (tinf - tlb) * m.exp(-s2 * zg2)
  }

  /** The Bates profile starts at the lower-boundary temperature. */
  lemma BatesAtLowerBoundary(m: Math, tinf: real, tlb: real, s2: real)
    requires Lawful(m)
    ensures BatesTemperature(m, tinf, tlb, s2, 0.0) == tlb
  {
    assert -s2 * 0.0 == 0.0;
  }

  /** Bates temperature gradient at the joining altitude `za`, which becomes
      the first gradient node of the spline below it. */
  function JoiningGradient(m: Math, re: real, tinf: real, ta: real, s2: real, zlb: real, za: real): real
  {
    (tinf - ta) * s2 * m.pow(Div(m, re + zlb, re + za), 2.0)
  }

  /** Diffusive density on the Bates profile: `dlb` at `zlb` scaled by the
      temperature ratio and the hydrostatic factor, whose exponential is
      capped at 50 (and set to 50 for a non-positive temperature). */
  function BatesDensity(m: Math, gsurf: real, re: real, dlb: real, tinf: real, tlb: real, xm: real,
                        alpha: real, zlb: real, s2: real, tt: real, zg2: real): real
  {
    var gamma := Div(m, xm * Gravity(m, gsurf, re, zlb), s2 * Rgas * tinf);
    var expl := if tt <= 0.0 then ExponentCap else Capped(m.exp(-s2 * gamma * zg2));
    dlb * m.pow(Div(m, tlb, tt), 1.0 + alpha + gamma) * expl
  }

  /** At the lower boundary the Bates density is the boundary density. */
  lemma BatesDensityAtLowerBoundary(m: Math, gsurf: real, re: real, dlb: real, tinf: real, tlb: real,
                                    xm: real, alpha: real, zlb: real, s2: real)
    requires Lawful(m) && tlb > 0.0
    ensures BatesDensity(m, gsurf, re, dlb, tinf, tlb, xm, alpha, zlb, s2, tlb, 0.0) == dlb
  {
    var gamma := Div(m, xm * Gravity(m, gsurf, re, zlb), s2 * Rgas * tinf);
    assert -s2 * gamma * 0.0 == 0.0;
    assert Capped(m.exp(-s2 * gamma * 0.0)) == 1.0;
    assert Div(m, tlb, tlb) == 1.0;
  }

  /** The spline part of `densu` below the joining altitude `za` (profile
      `s`, temperature `tt` and density `densa` at `za`): the result and the
      temperature left in `tz`. The hydrostatic exponent is capped at 50, and
      set to 50 for a non-positive temperature. */
  function BelowJoin(m: Math, gsurf: real, re: real, s: Segment, za: real, tt: real, densa: real,
                     xm: real, alpha: real): (r: (Result<real>, real))
    requires 1 <= |s.xs| && |s.ys| == |s.xs| && |s.y2| == |s.xs|
    ensures r.0.Failure? ==> r.0.error == MathmaticalError && r.1 == tt
    ensures xm == 0.0 && r.0.Success? ==> r.0.value == r.1
  {
    var y := Interpolate(s.xs, s.ys, s.y2, s.x);
    if y.Failure? then (Failure(y.error), tt)
    else
      var tz := Div(m, 1.0, y.value);
      if xm == 0.0 then (Success(tz), tz)
      else
        var gamm := LayerGamma(xm, Gravity(m, gsurf, re, za), s.zgdif);
        var expl := if tz <= 0.0 then ExponentCap else LayerExponent(gamm, Integrate(m, s.xs, s.ys, s.y2, s.x));
        (Success(Hydrostatic(m, densa, tt, tz, 1.0 + alpha, expl)), tz)
  }

  /** Evaluates the spline part of `densu` on the node buffers. */
  method BelowJoinOnBuffers(m: Math, gsurf: real, re: real, xs: array<real>, ys: array<real>, y2: array<real>,
                            x: real, zgdif: real, za: real, tt: real, densa: real, xm: real, alpha: real)
    returns (r: Result<real>, tz: real)
    requires 1 <= xs.Length && ys.Length == xs.Length && y2.Length == xs.Length
    ensures (r, tz) == BelowJoin(m, gsurf, re, Segment(xs[..], ys[..], y2[..], x, zgdif), za, tt, densa, xm, alpha)
  {
    var n := xs.Length;
    assert xs[..n] == xs[..] && ys[..n] == ys[..] && y2[..n] == y2[..];
    tz := tt;
    var y := Splint(xs, ys, y2, n, x);
    if y.Failure? {
      r := Failure(y.error);
      return;
    }
    tz := Div(m, 1.0, y.value);
    if xm == 0.0 {
      r := Success(tz);
      return;
    }
    var gamm := LayerGamma(xm, Gravity(m, gsurf, re, za), zgdif);
    var yi := Splini(m, xs, ys, y2, n, x);
    var expl := LayerExponent(gamm, yi);
    if tz <= 0.0 {
      expl := 50.0;
    }
    r := Success(Hydrostatic(m, densa, tt, tz, 1.0 + alpha, expl));
  }

  /** `densu`: temperature (`xm == 0`) or density at `alt` for a species of
      molecular mass `xm` with boundary density `dlb` at `zlb`. `tn1`/`tgn1`
      are the node temperatures and end gradients before the call. The first
      component is the result, the second the value left in the caller's
      `tz`. */
  function DensuSpec(m: Math, gsurf: real, re: real, alt: real, dlb: real, tinf: real, tlb: real,
                     xm: real, alpha: real, zlb: real, s2: real,
                     zn1: seq<real>, tn1: seq<real>, tgn1: seq<real>): (r: (Result<real>, real))
    requires 2 <= |zn1| == |tn1| && |tgn1| == 2
    ensures r.0.Failure? ==> r.0.error == MathmaticalError && alt < zn1[0]
    ensures alt >= zn1[0] ==> r.1 == BatesTemperature(m, tinf, tlb, s2, Zeta(m, re, alt, zlb))
    ensures xm == 0.0 && r.0.Success? ==> r.0.value == r.1
  {
    var za := zn1[0];
    var z := Max(alt, za);
    var zg2 := Zeta(m, re, z, zlb);
    var tt := BatesTemperature(m, tinf, tlb, s2, zg2);
    if alt < za then
      var tnNew := tn1[0 := tt];
      var tgnNew := tgn1[0 := JoiningGradient(m, re, tinf, tt, s2, zlb, za)];
      var s := SegmentOf(m, re, zn1, tnNew, tgnNew, Max(alt, zn1[|zn1| - 1]));
      var densa := BatesDensity(m, gsurf, re, dlb, tinf, tlb, xm, alpha, zlb, s2, tt, zg2);
      BelowJoin(m, gsurf, re, s, za, tt, densa, xm, alpha)
    else if xm == 0.0 then (Success(tt), tt)
    else (Success(BatesDensity(m, gsurf, re, dlb, tinf, tlb, xm, alpha, zlb, s2, tt, zg2)), tt)
  }

  /** At the lower boundary (at or above the joining altitude) `densu`
      returns the boundary density and temperature. */
  lemma DensuAtLowerBoundary(m: Math, gsurf: real, re: real, dlb: real, tinf: real, tlb: real,
                             xm: real, alpha: real, zlb: real, s2: real,
                             zn1: seq<real>, tn1: seq<real>, tgn1: seq<real>)
    requires Lawful(m) && tlb > 0.0 && re + zlb != 0.0
    requires 2 <= |zn1| == |tn1| && |tgn1| == 2
    requires zlb >= zn1[0]
    ensures DensuSpec(m, gsurf, re, zlb, dlb, tinf, tlb, xm, alpha, zlb, s2, zn1, tn1, tgn1)
         == (Success(if xm == 0.0 then tlb else dlb), tlb)
  {
    assert Zeta(m, re, zlb, zlb) == 0.0;
    BatesAtLowerBoundary(m, tinf, tlb, s2);
    BatesDensityAtLowerBoundary(m, gsurf, re, dlb, tinf, tlb, xm, alpha, zlb, s2);
  }

  /** `densu` on the engine's node arrays: below the joining altitude it
      first stores the Bates temperature and gradient there into `tn1[0]`
      and `tgn1[0]`. */
  method Densu(m: Math, gsurf: real, re: real, alt: real, dlb: real, tinf: real, tlb: real,
               xm: real, alpha: real, zlb: real, s2: real,
               zn1: seq<real>, tn1: array<real>, tgn1: array<real>) returns (r: Result<real>, tz: real)
    requires 2 <= |zn1| == tn1.Length && tgn1.Length == 2 && tn1 != tgn1
    modifies tn1, tgn1
    ensures (r, tz) == DensuSpec(m, gsurf, re, alt, dlb, tinf, tlb, xm, alpha, zlb, s2, zn1, old(tn1[..]), old(tgn1[..]))
    ensures alt < zn1[0] ==> tn1[..] == old(tn1[..])[0 := BatesTemperature(m, tinf, tlb, s2, Zeta(m, re, zn1[0], zlb))]
    ensures alt < zn1[0] ==> tgn1[..] == old(tgn1[..])[0 := JoiningGradient(m, re, tinf, tn1[0], s2, zlb, zn1[0])]
    ensures alt >= zn1[0] ==> tn1[..] == old(tn1[..]) && tgn1[..] == old(tgn1[..])
  {
    var za := zn1[0];
    var z := if alt > za then alt else za;
    var zg2 := Zeta(m, re, z, zlb);
    var tt := BatesTemperature(m, tinf, tlb, s2, zg2);
    tz := tt;
    if alt < za {
      var dta := JoiningGradient(m, re, tinf, tt, s2, zlb, za);
      tgn1[0] := dta;
      tn1[0] := tt;
      var zLow := if alt > zn1[|zn1| - 1] then alt else zn1[|zn1| - 1];
      var xs, ys, y2, x, zgdif := BuildSegment(m, re, zn1, tn1[..], tgn1[..], zLow);
      var densa := BatesDensity(m, gsurf, re, dlb, tinf, tlb, xm, alpha, zlb, s2, tt, zg2);
      r, tz := BelowJoinOnBuffers(m, gsurf, re, xs, ys, y2, x, zgdif, za, tt, densa, xm, alpha);
    } else if xm == 0.0 {
      r := Success(tt);
    } else {
      r := Success(BatesDensity(m, gsurf, re, dlb, tinf, tlb, xm, alpha, zlb, s2, tt, zg2));
    }
  }
}
