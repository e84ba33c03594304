/** The expression-level helpers of the NRLMSISE-00 engine: the
    geopotential transform, the magnetic-activity functions, gravity, the
    chemistry and mixing corrections, the scale height, the diffusive/mixed
    blend, the switch weights, the Legendre table, the switched sums, the
    mass-density identity and the mixing factor below 72.5 km.

    In the C++ engine `zeta` and `scalh` read the members `re` (effective
    Earth radius) and `gsurf` (surface gravity); here they are parameters. */
module MsisFunctions {
  import opened Numerics
  import opened GeoAtmosTypes

  /** Gas constant of the model (`rgas`). */
  const Rgas: real := 831.4

  /** Atomic mass unit in grams, the factor of the mass density. */
  const AtomicMassUnit: real := 1.66e-24

  // ---------------------------------------------------------------- zeta

  /** `zeta`: geopotential height of `zz` above `zl`. */
  function Zeta(m: Math, re: real, zz: real, zl: real): (r: real)
    ensures re + zz != 0.0 ==> r * (re + zz) == (zz - zl) * (re + zl)
  {
    Div(m, (zz - zl) * (re + zl), re + zz)
  }

  /** Above the Earth's centre the geopotential height has the sign of the
      height difference, and is zero exactly at the reference height. */
  lemma ZetaSign(m: Math, re: real, zz: real, zl: real)
    requires re + zl > 0.0 && re + zz > 0.0
    ensures Zeta(m, re, zz, zl) > 0.0 <==> zz > zl
    ensures Zeta(m, re, zz, zl) == 0.0 <==> zz == zl
  {
    var q := Zeta(m, re, zz, zl);
    var w, h := re + zz, re + zl;
    assert q * w == (zz - zl) * h;
    if zz > zl {
      PositiveProduct(zz - zl, h);
      PositiveFactor(q, w);
    } else if zz < zl {
      PositiveProduct(zl - zz, h);
      assert (zl - zz) * h == -((zz - zl) * h);
      assert (-q) * w == -(q * w);
      PositiveFactor(-q, w);
    } else {
      assert (zz - zl) * h == 0.0;
      ZeroFactor(q, w);
    }
  }

  /** A zero product with a non-zero factor has a zero other factor. */
  lemma ZeroFactor(x: real, y: real)
    requires x * y == 0.0 && y != 0.0
    ensures x == 0.0
  {
  }

  /** The product of two positive numbers is positive. */
  lemma PositiveProduct(x: real, y: real)
    requires x > 0.0 && y > 0.0
    ensures x * y > 0.0
  {
  }

  /** A product with a positive factor is positive only if the other factor is. */
  lemma PositiveFactor(x: real, y: real)
    requires x * y > 0.0 && y > 0.0
    ensures x > 0.0
  {
  }

  // ------------------------------------------------- magnetic activity

  /** `g0`: the Ap function of the magnetic-activity term, with the
      coefficients `p[24]` and `p[25]`. */
  function G0(m: Math, a: real, p: seq<real>): real
    requires |p| > 25
  {
    var k := m.sqrt(p[24] * p[24]);
    a - 4.0 + (p[25] - 1.0) * (a - 4.0 + Div(m, m.exp(-k * (a - 4.0)) - 1.0, k))
  }

  /** At the quiet-time index Ap = 4 the activity function vanishes. */
  lemma G0AtQuietAp(m: Math, p: seq<real>)
    requires Lawful(m) && |p| > 25 && p[24] != 0.0
    ensures G0(m, 4.0, p) == 0.0
  {
    var k := m.sqrt(p[24] * p[24]);
    assert p[24] * p[24] > 0.0;
    assert k > 0.0;
    assert -k * (4.0 - 4.0) == 0.0;
    assert m.exp(-k * (4.0 - 4.0)) - 1.0 == 0.0;
  }

  /** `sumex`: the normalising sum of the exponentially weighted Ap history. */
  function Sumex(m: Math, ex: real): real
  {
    1.0 + Div(m, 1.0 - m.pow(ex, 19.0), 1.0 - ex) * m.pow(ex, 0.5)
  }

  /** `sg0`: exponentially weighted mean of `g0` over the Ap history
      `ap[1..6]`. */
  function Sg0(m: Math, ex: real, p: seq<real>, ap: seq<real>): real
    requires |p| > 25 && |ap| == 7
  {
    var tail := Div(m, (G0(m, ap[5], p) * m.pow(ex, 4.0) + G0(m, ap[6], p) * m.pow(ex, 12.0)) * (1.0 - m.pow(ex, 8.0)), 1.0 - ex);
    Div(m, G0(m, ap[1], p) + (G0(m, ap[2], p) * ex + G0(m, ap[3], p) * ex * ex + G0(m, ap[4], p) * m.pow(ex, 3.0) + tail),
        Sumex(m, ex))
  }

  /** A quiet Ap history (every entry 4) contributes nothing. */
  lemma Sg0AtQuietHistory(m: Math, ex: real, p: seq<real>, ap: seq<real>)
    requires Lawful(m) && |p| > 25 && |ap| == 7 && p[24] != 0.0
    requires forall i :: 1 <= i < 7 ==> ap[i] == 4.0
    requires ex != 1.0 && Sumex(m, ex) != 0.0
    ensures Sg0(m, ex, p, ap) == 0.0
  {
    G0AtQuietAp(m, p);
    assert G0(m, ap[1], p) == 0.0 && G0(m, ap[2], p) == 0.0 && G0(m, ap[3], p) == 0.0;
    assert G0(m, ap[4], p) == 0.0 && G0(m, ap[5], p) == 0.0 && G0(m, ap[6], p) == 0.0;
    var tail := Div(m, (G0(m, ap[5], p) * m.pow(ex, 4.0) + G0(m, ap[6], p) * m.pow(ex, 12.0)) * (1.0 - m.pow(ex, 8.0)), 1.0 - ex);
    assert (G0(m, ap[5], p) * m.pow(ex, 4.0) + G0(m, ap[6], p) * m.pow(ex, 12.0)) * (1.0 - m.pow(ex, 8.0)) == 0.0;
    assert Div(m, 0.0, 1.0 - ex) == 0.0;
    assert tail == 0.0;
    var num := G0(m, ap[1], p) + (G0(m, ap[2], p) * ex + G0(m, ap[3], p) * ex * ex + G0(m, ap[4], p) * m.pow(ex, 3.0) + tail);
    assert num == 0.0;
  }

  // -------------------------------------------------------------- gravity

  /** `glatf`: surface gravity (cm/s^2) and effective Earth radius (km) at
      latitude `lat` (degrees). */
  function Glatf(m: Math, lat: real): (r: (real, real))
  {
    var c2 := m.cos(2.0 * m.deg(lat));
    var gv := 980.616 * (1.0 - 0.0026373 * c2);
    (gv, Div(m, 2.0 * gv, 3.085462e-6 + 2.27e-9 * c2) * 1.0e-5)
  }

  /** Gravity lies between its polar and equatorial values and the effective
      radius is positive, at every latitude. */
  lemma GlatfBounds(m: Math, lat: real)
    requires Lawful(m)
    ensures 978.0 < Glatf(m, lat).0 < 983.3
    ensures Glatf(m, lat).1 > 0.0
  {
    var c2 := m.cos(2.0 * m.deg(lat));
    assert -1.0 <= c2 <= 1.0;
    var gv := 980.616 * (1.0 - 0.0026373 * c2);
    var den := 3.085462e-6 + 2.27e-9 * c2;
    assert den > 0.0;
    var q := Div(m, 2.0 * gv, den);
    assert q * den == 2.0 * gv;
    assert q > 0.0;
  }

  // ---------------------------------------------------------- corrections

  /** `ccor`: chemistry/dissociation correction: `exp(r)` far below `zh`,
      1 far above it, a logistic blend between. */
  function Ccor(m: Math, alt: real, r: real, h1: real, zh: real): (c: real)
  {
    var e := Div(m, alt - zh, h1);
    if e > 70.0 then m.exp(0.0)
    else if e < -70.0 then m.exp(r)
    else m.exp(Div(m, r, 1.0 + m.exp(e)))
  }

  /** The correction is a positive factor, saturating at 1 more than 70
      scale heights above `zh` and at `exp(r)` more than 70 below it. */
  lemma CcorSaturates(m: Math, alt: real, r: real, h1: real, zh: real)
    requires Lawful(m)
    ensures Ccor(m, alt, r, h1, zh) > 0.0
    ensures h1 > 0.0 && alt - zh > 70.0 * h1 ==> Ccor(m, alt, r, h1, zh) == 1.0
    ensures h1 > 0.0 && alt - zh < -70.0 * h1 ==> Ccor(m, alt, r, h1, zh) == m.exp(r)
  {
    if h1 > 0.0 {
      var e := Div(m, alt - zh, h1);
      assert e * h1 == alt - zh;
      if alt - zh > 70.0 * h1 {
        assert (e - 70.0) * h1 > 0.0;
      } else if alt - zh < -70.0 * h1 {
        assert (e + 70.0) * h1 < 0.0;
      }
    }
  }

  /** `ccor2`: the same correction with two scale heights. */
  function Ccor2(m: Math, alt: real, r: real, h1: real, zh: real, h2: real): real
  {
    var e1 := Div(m, alt - zh, h1);
    var e2 := Div(m, alt - zh, h2);
    if e1 > 70.0 || e2 > 70.0 then m.exp(0.0)
    else if e1 < -70.0 && e2 < -70.0 then m.exp(r)
    else m.exp(Div(m, r, 1.0 + 0.5 * (m.exp(e1) + m.exp(e2))))
  }

  /** With equal scale heights the two-scale correction is `ccor`. */
  lemma Ccor2WithEqualScales(m: Math, alt: real, r: real, h: real, zh: real)
    ensures Ccor2(m, alt, r, h, zh, h) == Ccor(m, alt, r, h, zh)
  {
    var e := Div(m, alt - zh, h);
    assert 1.0 + 0.5 * (m.exp(e) + m.exp(e)) == 1.0 + m.exp(e);
  }

  /** `scalh`: scale height of a gas of molecular mass `xm` at temperature
      `temp`, altitude `alt`. */
  function Scalh(m: Math, gsurf: real, re: real, alt: real, xm: real, temp: real): real
  {
    var g := Div(m, gsurf, m.pow(1.0 + Div(m, alt, re), 2.0));
    Div(m, Rgas * temp, g * xm)
  }

  /** The scale height is positive for a positive temperature and mass above
      the Earth's centre. */
  lemma ScalhPositive(m: Math, gsurf: real, re: real, alt: real, xm: real, temp: real)
    requires Lawful(m)
    requires gsurf > 0.0 && re > 0.0 && alt > -re && xm > 0.0 && temp > 0.0
    ensures Scalh(m, gsurf, re, alt, xm, temp) > 0.0
  {
    var q := Div(m, alt, re);
    assert q * re == alt;
    assert (1.0 + q) * re == re + alt;
    PositiveFactor(1.0 + q, re);
    var w := m.pow(1.0 + q, 2.0);
    assert w > 0.0;
    var g := Div(m, gsurf, w);
    assert g * w == gsurf;
    assert g > 0.0;
    assert g * xm > 0.0;
    var h := Div(m, Rgas * temp, g * xm);
    assert h * (g * xm) == Rgas * temp;
  }

  /** The exponent `ylog` of `dnet`: the log density ratio scaled by
      `zhm / (xmm - xm)`. */
  function DnetExponent(m: Math, dd: real, dm: real, zhm: real, xmm: real, xm: real): real
  {
    Div(m, zhm, xmm - xm) * m.log(Div(m, dm, dd))
  }

  /** `dnet`: turbopause blend of the diffusive density `dd` and the mixed
      density `dm`; a non-positive density is a domain error of the log. */
  function Dnet(m: Math, dd: real, dm: real, zhm: real, xmm: real, xm: real): (r: Result<real>)
    ensures r.Failure? <==> !(dm > 0.0 && dd > 0.0)
    ensures r.Failure? ==> r.error == MathmaticalError
    ensures r.Success? && DnetExponent(m, dd, dm, zhm, xmm, xm) < -10.0 ==> r.value == dd
    ensures r.Success? && DnetExponent(m, dd, dm, zhm, xmm, xm) > 10.0 ==> r.value == dm
  {
    if !(dm > 0.0 && dd > 0.0) then Failure(MathmaticalError)
    else
      var a := Div(m, zhm, xmm - xm);
      var ylog := a * m.log(Div(m, dm, dd));
      if ylog < -10.0 then Success(dd)
      else if ylog > 10.0 then Success(dm)
      else Success(dd * m.pow(1.0 + m.exp(ylog), Div(m, 1.0, a)))
  }

  /** A successful blend of two positive densities is positive. */
  lemma DnetPositive(m: Math, dd: real, dm: real, zhm: real, xmm: real, xm: real)
    requires Lawful(m) && dd > 0.0 && dm > 0.0
    ensures Dnet(m, dd, dm, zhm, xmm, xm).Success?
    ensures Dnet(m, dd, dm, zhm, xmm, xm).value > 0.0
  {
    var ylog := DnetExponent(m, dd, dm, zhm, xmm, xm);
    var a := Div(m, zhm, xmm - xm);
    assert m.exp(ylog) > 0.0;
    assert m.pow(1.0 + m.exp(ylog), Div(m, 1.0, a)) > 0.0;
  }

  // ------------------------------------------------------- switch weights

  /** The weight `tselec` gives switch `i` with integer setting `s` in `sw`:
      1 only for setting 1; the daily-Ap switch keeps its setting. */
  function SwWeight(i: int, s: int): real
  {
    if i != DailyApIndex then (if s == 1 then 1.0 else 0.0) else s as real
  }

  /** The weight `tselec` gives it in `swc`: 1 for any positive setting. */
  function SwcWeight(i: int, s: int): real
  {
    if i != DailyApIndex then (if s > 0 then 1.0 else 0.0) else s as real
  }

  /** Two switch weights applied together, as where a node's variation
      needs both its own switch and the switch of its region. */
  function JointWeight(a: real, b: real): real
  {
    a * b
  }

  /** What each switch status of the facade becomes in the two weight
      arrays: Off gives (0, 0) and On (1, 1); Specific gives (0, 1) on an
      ordinary switch (only the cross terms stay on) and (-1, -1) on the
      daily-Ap switch (the Ap-history mode). */
  lemma WeightsOfStatus(c: ModelConfig, i: int)
    requires 0 <= i < 24
    ensures var s := ConvertNativeStatus(c)[i];
      && (c.Field(i) == Off ==> SwWeight(i, s) == 0.0 && SwcWeight(i, s) == 0.0)
      && (c.Field(i) == On ==> SwWeight(i, s) == 1.0 && SwcWeight(i, s) == 1.0)
      && (c.Field(i) == Specific && i != DailyApIndex ==> SwWeight(i, s) == 0.0 && SwcWeight(i, s) == 1.0)
      && (c.Field(i) == Specific && i == DailyApIndex ==> SwWeight(i, s) == -1.0 && SwcWeight(i, s) == -1.0)
  {
    NativeStatusCodes(c);
  }

  /** `sum_{k < n} |sw[k+1]| * t[k]`: the switch-gated total of the harmonic
      terms of `globe7` and `glob7s`. */
  function SwitchedSum(sw: seq<real>, t: seq<real>, n: nat): real
    requires n <= |t| && n < |sw|
  {
    if n == 0 then 0.0 else SwitchedSum(sw, t, n - 1) + Abs(sw[n]) * t[n - 1]
  }

  /** With every switch off the terms contribute nothing. */
  lemma {:induction false} SwitchedSumAllOff(sw: seq<real>, t: seq<real>, n: nat)
    requires n <= |t| && n < |sw|
    requires forall k :: 1 <= k <= n ==> sw[k] == 0.0
    ensures SwitchedSum(sw, t, n) == 0.0
  {
    if n > 0 {
      SwitchedSumAllOff(sw, t, n - 1);
    }
  }

  /** A term whose switch is off does not matter: two term lists that agree
      wherever the switch is on have the same total. */
  lemma {:induction false} SwitchedSumIgnoresOffTerms(sw: seq<real>, t: seq<real>, u: seq<real>, n: nat)
    requires n <= |t| && n <= |u| && n < |sw|
    requires forall k :: 0 <= k < n && sw[k + 1] != 0.0 ==> t[k] == u[k]
    ensures SwitchedSum(sw, t, n) == SwitchedSum(sw, u, n)
  {
    if n > 0 {
      SwitchedSumIgnoresOffTerms(sw, t, u, n - 1);
      assert sw[n] == 0.0 || t[n - 1] == u[n - 1];
    }
  }

  // ------------------------------------------------------ Legendre table

  /** The 4 x 9 table `plg` of associated Legendre functions. */
  predicate LegendreShape(plg: seq<seq<real>>)
  {
    |plg| == 4 && forall i :: 0 <= i < 4 ==> |plg[i]| == 9
  }

  /** The entries `globe7` computes; the others are never written (nor read). */
  predicate LegendreWritten(i: int, j: int)
  {
    || (i == 0 && 1 <= j <= 6)
    || (i == 1 && 1 <= j <= 6)
    || (i == 2 && 2 <= j <= 7)
    || (i == 3 && 3 <= j <= 6)
  }

  /** The entries `globe7` computes for c = sin(latitude) and s =
      cos(latitude), in the slots `LegendreWritten` names (the other slots
      hold 0): `plg[m][n]` is P_n^m, entries of higher degree by the
      recurrences the engine uses. */
  function LegendreValues(c: real, s: real): (v: seq<seq<real>>)
    ensures LegendreShape(v)
  {
    var c2 := c * c;
    var c4 := c2 * c2;
    var s2 := s * s;
    var p04 := (35.0 * c4 - 30.0 * c2 + 3.0) / 8.0;
    var p05 := (63.0 * c2 * c2 * c - 70.0 * c2 * c + 15.0 * c) / 8.0;
    var p14 := 2.5 * (7.0 * c2 * c - 3.0 * c) * s;
    var p15 := 1.875 * (21.0 * c4 - 14.0 * c2 + 1.0) * s;
    var p23 := 15.0 * s2 * c;
    var p24 := 7.5 * (7.0 * c2 - 1.0) * s2;
    var p25 := 3.0 * c * p24 - 2.0 * p23;
    var p26 := (11.0 * c * p25 - 7.0 * p24) / 4.0;
    var p33 := 15.0 * s2 * s;
    var p34 := 105.0 * s2 * s * c;
    var p35 := (9.0 * c * p34 - 7.0 * p33) / 2.0;
    var zero := seq(9, _ => 0.0);
    var row0 := zero[1 := c][2 := 0.5 * (3.0 * c2 - 1.0)][3 := 0.5 * (5.0 * c * c2 - 3.0 * c)]
                  [4 := p04][5 := p05][6 := (11.0 * c * p05 - 5.0 * p04) / 6.0];
    var row1 := zero[1 := s][2 := 3.0 * c * s][3 := 1.5 * (5.0 * c2 - 1.0) * s]
                  [4 := p14][5 := p15][6 := (11.0 * c * p15 - 6.0 * p14) / 5.0];
    var row2 := zero[2 := 3.0 * s2][3 := p23][4 := p24][5 := p25][6 := p26]
                  [7 := (13.0 * c * p26 - 8.0 * p25) / 5.0];
    var row3 := zero[3 := p33][4 := p34][5 := p35][6 := (11.0 * c * p35 - 8.0 * p34) / 3.0];
    [row0, row1, row2, row3]
  }

  /** The table after `globe7` fills it: the computed entries replaced,
      every other entry as it was. */
  function LegendreUpdate(c: real, s: real, plg: seq<seq<real>>): (r: seq<seq<real>>)
    requires LegendreShape(plg)
    ensures LegendreShape(r)
    ensures forall i, j :: 0 <= i < 4 && 0 <= j < 9 && !LegendreWritten(i, j) ==> r[i][j] == plg[i][j]
    ensures forall i, j :: 0 <= i < 4 && 0 <= j < 9 && LegendreWritten(i, j) ==> r[i][j] == LegendreValues(c, s)[i][j]
  {
    seq(4, i requires 0 <= i < 4 =>
      seq(9, j requires 0 <= j < 9 => if LegendreWritten(i, j) then LegendreValues(c, s)[i][j] else plg[i][j]))
  }

  /** At the pole (c = 1, s = 0) every zonal function P_n is 1 and every
      tesseral function vanishes, as for the exact Legendre functions. */
  lemma LegendreAtPole()
    ensures var v := LegendreValues(1.0, 0.0);
      && (forall j :: 1 <= j <= 6 ==> v[0][j] == 1.0)
      && (forall i, j :: 1 <= i < 4 && 0 <= j < 9 && LegendreWritten(i, j) ==> v[i][j] == 0.0)
  {
  }

  /** On the equator (c = 0, s = 1) the odd zonal functions vanish and
      P_2 = -1/2, P_4 = 3/8, P_6 = -5/16. */
  lemma LegendreAtEquator()
    ensures var r := LegendreValues(0.0, 1.0);
      && r[0][1] == 0.0 && r[0][3] == 0.0 && r[0][5] == 0.0
      && r[0][2] == -0.5 && r[0][4] == 0.375 && r[0][6] == -0.3125
      && r[1][1] == 1.0 && r[2][2] == 3.0 && r[3][3] == 15.0
  {
  }

  // ---------------------------------------------------------- mass density

  /** Total mass density (g/cm^3) of number densities in cm^-3: the species
      weighted by atomic mass (He 4, O 16, N2 28, O2 32, Ar 40, H 1, N 14). */
  function MassDensity(d: seq<real>): real
    requires |d| == 9
  {
    AtomicMassUnit * (4.0 * d[0] + 16.0 * d[1] + 28.0 * d[2] + 32.0 * d[3] + 40.0 * d[4] + d[6] + 14.0 * d[7])
  }

  /** The mass identity of the output array: `d[5]` is the weighted sum of
      the species, divided by 1000 in metric units (kg/m^3 from m^-3). */
  ghost predicate MassConsistent(d: seq<real>, metric: bool)
    requires |d| == 9
  {
    d[5] == (if metric then MassDensity(d) / 1000.0 else MassDensity(d))
  }

  /** The unit conversion of `gts7`: every entry times 1e6 (cm^-3 to m^-3),
      then the mass density divided by 1000 (g to kg). */
  function ToMetric(d: seq<real>): (r: seq<real>)
    requires |d| == 9
    ensures |r| == 9
  {
    seq(9, i requires 0 <= i < 9 => if i == 5 then d[i] * 1.0e6 / 1000.0 else d[i] * 1.0e6)
  }

  /** The conversion keeps the identity: it turns a consistent output in
      cm^-3 and g/cm^3 into one in m^-3 and kg/m^3. */
  lemma ToMetricKeepsMassIdentity(d: seq<real>)
    requires |d| == 9 && MassConsistent(d, false)
    ensures MassConsistent(ToMetric(d), true)
  {
    var r := ToMetric(d);
    assert r[0] == d[0] * 1.0e6 && r[1] == d[1] * 1.0e6 && r[2] == d[2] * 1.0e6 && r[3] == d[3] * 1.0e6;
    assert r[4] == d[4] * 1.0e6 && r[6] == d[6] * 1.0e6 && r[7] == d[7] * 1.0e6;
    assert MassDensity(r) == MassDensity(d) * 1.0e6;
  }

  /** `gtd7d`'s total mass density, which also counts anomalous oxygen. */
  function MassDensityWithAnomalousOxygen(d: seq<real>): (r: real)
    requires |d| == 9
    ensures r == MassDensity(d) + AtomicMassUnit * 16.0 * d[8]
  {
    AtomicMassUnit * (4.0 * d[0] + 16.0 * d[1] + 28.0 * d[2] + 32.0 * d[3] + 40.0 * d[4] + d[6] + 14.0 * d[7] + 16.0 * d[8])
  }

  // ------------------------------------------------ lower-atmosphere mixing

  /** Bottom of the thermosphere profile (`zn2[0]`), in km. */
  const MesosphereTop: real := 72.5

  /** Altitude below which the lower atmosphere is fully mixed (`zmix`). */
  const FullMixingAltitude: real := 62.5

  /** `dmc`: weight of the diffusive departures below 72.5 km, falling
      linearly from 1 at 72.5 km to 0 at 62.5 km, and 0 below. */
  function MixingFactor(alt: real): (dmc: real)
    ensures alt <= FullMixingAltitude ==> dmc == 0.0
    ensures FullMixingAltitude < alt <= MesosphereTop ==> 0.0 < dmc <= 1.0
    ensures alt == MesosphereTop ==> dmc == 1.0
  {
    if alt > FullMixingAltitude then 1.0 - (MesosphereTop - alt) / (MesosphereTop - FullMixingAltitude) else 0.0
  }

  /** Between the two altitudes the factor grows by a tenth per km. */
  lemma MixingFactorIsLinear(a: real, b: real)
    requires FullMixingAltitude < a <= b
    ensures MixingFactor(b) - MixingFactor(a) == (b - a) / 10.0
  {
  }

  // ----------------------------------------------------- pressure inversion

  /** Boltzmann constant in the units of `ghp7` (`bm`). */
  const Boltzmann: real := 1.3806e-19

  /** The summed number density of the species `ghp7` counts. */
  function NumberDensity(d: seq<real>): real
    requires |d| == 9
  {
    d[0] + d[1] + d[2] + d[3] + d[4] + d[6] + d[7]
  }

  /** `p = bm * xn * T`, converted from per m^3 when metric. */
  function Pressure(d: seq<real>, tz: real, metric: bool): real
    requires |d| == 9
  {
    var p := Boltzmann * NumberDensity(d) * tz;
    if metric then p * 1.0e-6 else p
  }

  /** `xm`: mean molecular mass, from the mass and number densities. */
  function MeanMass(m: Math, d: seq<real>, metric: bool): real
    requires |d| == 9
  {
    var xm := Div(m, Div(m, d[5], NumberDensity(d)), AtomicMassUnit);
    if metric then xm * 1.0e3 else xm
  }

  /** Of an output that keeps the mass identity, the mean mass is the mean of
      the species' atomic masses weighted by their number densities. */
  lemma MeanMassOfConsistentOutput(m: Math, d: seq<real>, metric: bool)
    requires |d| == 9 && MassConsistent(d, metric) && NumberDensity(d) != 0.0
    ensures MeanMass(m, d, metric) * NumberDensity(d)
         == 4.0 * d[0] + 16.0 * d[1] + 28.0 * d[2] + 32.0 * d[3] + 40.0 * d[4] + d[6] + 14.0 * d[7]
  {
    var xn := NumberDensity(d);
    var w := 4.0 * d[0] + 16.0 * d[1] + 28.0 * d[2] + 32.0 * d[3] + 40.0 * d[4] + d[6] + 14.0 * d[7];
    var q := Div(m, d[5], xn);
    assert q * xn == d[5];
    var xm := Div(m, q, AtomicMassUnit);
    assert xm * AtomicMassUnit == q;
    if metric {
      assert d[5] == AtomicMassUnit * w / 1000.0;
      assert xm * AtomicMassUnit * xn == AtomicMassUnit * w / 1000.0;
      assert xm * xn * 1.0e3 == w;
    } else {
      assert d[5] == AtomicMassUnit * w;
      assert xm * AtomicMassUnit * xn == AtomicMassUnit * w;
      assert xm * xn == w;
    }
  }

  /** `ghp7`'s first altitude guess (km) for log10-pressure `pl`, from the
      piecewise fit in `pl` with latitude and season corrections; below
      log10 p = -5 a quadratic in `pl`. */
  function InitialAltitude(m: Math, pl: real, gLat: real, doy: int): real
  {
    if pl >= -5.0 then
      var zi :=
        if pl > 2.5 then 18.06 * (3.00 - pl)
        else if pl > 0.075 && pl <= 2.5 then 14.98 * (3.08 - pl)
        else if pl > -1.0 && pl <= 0.075 then 17.80 * (2.72 - pl)
        else if pl > -2.0 && pl <= -1.0 then 14.28 * (3.64 - pl)
        else if pl > -4.0 && pl <= -2.0 then 12.72 * (4.32 - pl)
        else 25.3 * (0.11 - pl);
      var cl := gLat / 90.0;
      var cl2 := cl * cl;
      var cd := if doy < 182 then (1.0 - doy as real) / 91.25 else (doy as real) / 91.25 - 3.0;
      var ca0 := if pl > -1.11 && pl <= -0.23 then 1.0 else 0.0;
      var ca1 := if pl > -0.23 then (2.79 - pl) / (2.79 + 0.23) else ca0;
      var ca := if pl <= -1.11 && pl > -3.0 then (-2.93 - pl) / (-2.93 + 1.11) else ca1;
      zi - 4.87 * cl * cd * ca - 1.64 * cl2 * ca + 0.31 * ca * cl
    else
      22.0 * m.pow(pl + 4.0, 2.0) + 110.0
  }

  /** `ghp7`'s Newton-like step: the new altitude from the scale height at
      `z` and the log-pressure error, amplified by 2.302 (ln 10) during the
      first five iterations. */
  function NextAltitude(m: Math, gsurf: real, re: real, z: real, l: int, diff: real, tz: real, xm: real): (r: real)
    ensures diff == 0.0 ==> r == z
  {
    var g := Div(m, gsurf, m.pow(1.0 + Div(m, z, re), 2.0));
    var sh := Div(m, Rgas * tz, xm * g);
    if l < 6 then z - sh * diff * 2.302 else z - sh * diff
  }

  /** The step of `ghp7` is the scale height at `z` times the log-pressure
      error, amplified by 2.302 during the first five passes. */
  lemma NextAltitudeIsScaleHeightStep(m: Math, gsurf: real, re: real, z: real, l: int, diff: real, tz: real, xm: real)
    ensures z - NextAltitude(m, gsurf, re, z, l, diff, tz, xm)
      == (if l < 6 then 2.302 else 1.0) * Scalh(m, gsurf, re, z, xm, tz) * diff
  {
  }
}
