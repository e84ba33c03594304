/** The spherical-harmonic expansions of the engine: `globe7` (thermosphere)
    and `glob7s` (lower atmosphere). Each computes a list of 14 terms that
    start at zero (the diurnal, semidiurnal, terdiurnal, magnetic and
    longitudinal ones are written only when their switch is on) and returns
    their sum weighted by `|sw[i+1]|`; `globe7` adds the constant `p[30]`.

    Both read the engine's cache of Legendre functions, local-time
    harmonics, flux difference and Ap functions; `globe7` refreshes it. The
    functions here describe the terms and the refreshed cache; the engine's
    methods apply them. */
module MsisHarmonics {
  import opened Numerics
  import opened MsisFunctions

  /** Seconds per day, the period of the universal-time terms. */
  const SecondsPerDay: real := 86400.0

  /** Sines and cosines of one, two and three times the local-time angle
      (`stloc`, `ctloc`, `s2tloc`, `c2tloc`, `s3tloc`, `c3tloc`). */
  datatype Harmonics = Harmonics(stloc: real, ctloc: real, s2tloc: real, c2tloc: real, s3tloc: real, c3tloc: real)

  /** The harmonics of local time `tloc` (hours). */
  function HarmonicsAt(m: Math, tloc: real): Harmonics
  {
    Harmonics(m.sin(m.hour(tloc)), m.cos(m.hour(tloc)), m.sin(m.hour(2.0 * tloc)), m.cos(m.hour(2.0 * tloc)),
              m.sin(m.hour(3.0 * tloc)), m.cos(m.hour(3.0 * tloc)))
  }

  /** The seasonal cosines: annual (`cd32`, `cd14`) and semiannual (`cd18`,
      `cd39`), with phases from the coefficient row. */
  datatype Seasonal = Seasonal(cd32: real, cd18: real, cd14: real, cd39: real)

  function SeasonalOf(m: Math, doy: real, p: seq<real>): Seasonal
    requires |p| > 38
  {
    Seasonal(m.cos(m.doy(doy - p[31])), m.cos(m.doy(2.0 * (doy - p[17]))),
             m.cos(m.doy(doy - p[13])), m.cos(m.doy(2.0 * (doy - p[38]))))
  }

  /** The fields of the engine input the expansions read. */
  datatype Conditions = Conditions(
    doy: real, sec: real, gLat: real, gLong: real, lst: real,
    f107A: real, f107: real, ap: real, apA: seq<real>)

  /** The engine's cache shared by the two expansions: the flux difference
      `dfa`, the Legendre table `plg`, the local-time harmonics, the daily-Ap
      function `apdf` and the Ap-history functions `apt`. */
  datatype HarmonicCache = HarmonicCache(dfa: real, plg: seq<seq<real>>, h: Harmonics, apdf: real, apt: seq<real>)

  predicate CacheShape(c: HarmonicCache)
  {
    LegendreShape(c.plg) && |c.apt| == 4
  }

  // ------------------------------------------------------------ globe7

  /** `t[0]`: the F10.7 flux effect. */
  function FluxTerm(m: Math, p: seq<real>, df: real, dfa: real): real
    requires |p| > 59
  {
    p[19] * df * (1.0 + p[59] * dfa) + p[20] * df * df + p[21] * dfa + p[29] * m.pow(dfa, 2.0)
  }

  /** `f1` (`k` = 47) and `f2` (`k` = 49): the flux factors of the
      asymmetrical and local-time terms. */
  function FluxFactor(p: seq<real>, k: int, df: real, dfa: real, swc1: real): real
    requires 20 < |p| && 0 <= k < |p|
  {
    1.0 + (p[k] * dfa + p[19] * df + p[20] * df * df) * swc1
  }

  /** `t[1]`: the time-independent term. */
  function TimeIndependent(p: seq<real>, plg: seq<seq<real>>, dfa: real, swc1: real): real
    requires |p| > 26 && LegendreShape(plg)
  {
    (p[1] * plg[0][2] + p[2] * plg[0][4] + p[22] * plg[0][6]) + (p[14] * plg[0][2]) * dfa * swc1 + p[26] * plg[0][1]
  }

  /** `t[2]`: the symmetrical annual term. */
  function SymmetricalAnnual(p: seq<real>, cd: Seasonal): real
    requires |p| > 18
  {
    p[18] * cd.cd32
  }

  /** `t[3]`: the symmetrical semiannual term. */
  function SymmetricalSemiannual(p: seq<real>, plg: seq<seq<real>>, cd: Seasonal): real
    requires |p| > 16 && LegendreShape(plg)
  {
    (p[15] + p[16] * plg[0][2]) * cd.cd18
  }

  /** `t[5]`: the asymmetrical semiannual term. */
  function AsymmetricalSemiannual(p: seq<real>, plg: seq<seq<real>>, cd: Seasonal): real
    requires |p| > 37 && LegendreShape(plg)
  {
    p[37] * plg[0][1] * cd.cd39
  }

  /** `t[4]`: the asymmetrical annual term. */
  function AsymmetricalAnnual(p: seq<real>, plg: seq<seq<real>>, cd: Seasonal, f1: real): real
    requires |p| > 10 && LegendreShape(plg)
  {
    f1 * (p[9] * plg[0][1] + p[10] * plg[0][3]) * cd.cd14
  }

  /** `t[6]`: the diurnal term. */
  function Diurnal(p: seq<real>, plg: seq<seq<real>>, cd: Seasonal, h: Harmonics, swc5: real, f2: real): real
    requires |p| > 28 && LegendreShape(plg)
  {
    var t71 := (p[11] * plg[1][2]) * cd.cd14 * swc5;
    var t72 := (p[12] * plg[1][2]) * cd.cd14 * swc5;
    f2 * ((p[3] * plg[1][1] + p[4] * plg[1][3] + p[27] * plg[1][5] + t71) * h.ctloc
        + (p[6] * plg[1][1] + p[7] * plg[1][3] + p[28] * plg[1][5] + t72) * h.stloc)
  }

  /** The semidiurnal term, scaled by `f` (`f2` in `globe7`, 1 in `glob7s`). */
  function Semidiurnal(p: seq<real>, plg: seq<seq<real>>, cd: Seasonal, h: Harmonics, swc5: real, f: real): real
    requires |p| > 42 && LegendreShape(plg)
  {
    var t81 := (p[23] * plg[2][3] + p[35] * plg[2][5]) * cd.cd14 * swc5;
    var t82 := (p[33] * plg[2][3] + p[36] * plg[2][5]) * cd.cd14 * swc5;
    f * ((p[5] * plg[2][2] + p[41] * plg[2][4] + t81) * h.c2tloc + (p[8] * plg[2][2] + p[42] * plg[2][4] + t82) * h.s2tloc)
  }

  /** `t[13]`: the terdiurnal term. */
  function Terdiurnal(p: seq<real>, plg: seq<seq<real>>, cd: Seasonal, h: Harmonics, swc5: real, f2: real): real
    requires |p| > 94 && LegendreShape(plg)
  {
    f2 * ((p[39] * plg[3][3] + (p[93] * plg[3][4] + p[46] * plg[3][6]) * cd.cd14 * swc5) * h.s3tloc
        + (p[40] * plg[3][3] + (p[94] * plg[3][4] + p[48] * plg[3][6]) * cd.cd14 * swc5) * h.c3tloc)
  }

  /** `exp1`: the decay factor of the Ap history, at most 0.99999. */
  function HistoryDecay(m: Math, p: seq<real>, gLat: real): (e: real)
    requires |p| > 138
    ensures e <= 0.99999
  {
    var e := m.exp(Div(m, -10800.0 * m.sqrt(p[51] * p[51]), 1.0 + p[138] * (45.0 - m.sqrt(gLat * gLat))));
    if e > 0.99999 then 0.99999 else e
  }

  /** The row after the floor `p[24] >= 1e-4` that the Ap-history mode
      applies before evaluating `sg0`. */
  function FlooredRow(p: seq<real>): (q: seq<real>)
    requires |p| > 24
    ensures |q| == |p| && q[24] >= 1.0e-4
    ensures forall i :: 0 <= i < |p| && i != 24 ==> q[i] == p[i]
  {
    if p[24] < 1.0e-4 then p[24 := 1.0e-4] else p
  }

  /** `apdf`: the daily-Ap function, with a negative rate `p[43]` replaced by
      1e-5. */
  function ApdfOf(m: Math, p: seq<real>, ap: real): real
    requires |p| > 44
  {
    var apd := ap - 4.0;
    var p44 := if p[43] < 0.0 then 1.0e-5 else p[43];
    apd + (p[44] - 1.0) * (apd + Div(m, m.exp(-p44 * apd) - 1.0, p44))
  }

  /** `t[8]` in the Ap-history mode (`sw[9] == -1`). */
  function ApHistoryTerm(m: Math, p: seq<real>, plg: seq<seq<real>>, cd: Seasonal, swc5: real, swc7: real,
                         tloc: real, apt0: real): real
    requires |p| > 131 && LegendreShape(plg)
  {
    apt0 * (p[50] + p[96] * plg[0][2] + p[54] * plg[0][4]
            + (p[125] * plg[0][1] + p[126] * plg[0][3] + p[127] * plg[0][5]) * cd.cd14 * swc5
            + (p[128] * plg[1][1] + p[129] * plg[1][3] + p[130] * plg[1][5]) * swc7 * m.cos(m.hour(tloc - p[131])))
  }

  /** `t[8]` in the daily-Ap mode. */
  function DailyApTerm(m: Math, p: seq<real>, plg: seq<seq<real>>, cd: Seasonal, swc5: real, swc7: real,
                       tloc: real, apdf: real): real
    requires |p| > 124 && LegendreShape(plg)
  {
    apdf * (p[32] + p[45] * plg[0][2] + p[34] * plg[0][4]
            + (p[100] * plg[0][1] + p[101] * plg[0][3] + p[102] * plg[0][5]) * cd.cd14 * swc5
            + (p[121] * plg[1][1] + p[122] * plg[1][3] + p[123] * plg[1][5]) * swc7 * m.cos(m.hour(tloc - p[124])))
  }

  /** `t[10]`: the longitudinal term. */
  function Longitudinal(m: Math, p: seq<real>, plg: seq<seq<real>>, cd: Seasonal, swc1: real, swc5: real,
                        dfa: real, gLong: real): real
    requires |p| > 114 && LegendreShape(plg)
  {
    (1.0 + p[80] * dfa * swc1)
    * ((p[64] * plg[1][2] + p[65] * plg[1][4] + p[66] * plg[1][6] + p[103] * plg[1][1] + p[104] * plg[1][3]
        + p[105] * plg[1][5] + swc5 * (p[109] * plg[1][1] + p[110] * plg[1][3] + p[111] * plg[1][5]) * cd.cd14)
       * m.cos(m.deg(gLong))
       + (p[90] * plg[1][2] + p[91] * plg[1][4] + p[92] * plg[1][6] + p[106] * plg[1][1] + p[107] * plg[1][3]
          + p[108] * plg[1][5] + swc5 * (p[112] * plg[1][1] + p[113] * plg[1][3] + p[114] * plg[1][5]) * cd.cd14)
       * m.sin(m.deg(gLong)))
  }

  /** `t[11]`: the universal-time and mixed UT/longitude term. */
  function UniversalTime(m: Math, p: seq<real>, plg: seq<seq<real>>, cd: Seasonal, swc1: real, swc5: real,
                         swc11: real, dfa: real, sec: real, gLong: real): real
    requires |p| > 137 && LegendreShape(plg)
  {
    (1.0 + p[95] * plg[0][1]) * (1.0 + p[81] * dfa * swc1) * (1.0 + p[119] * plg[0][1] * swc5 * cd.cd14)
    * ((p[68] * plg[0][1] + p[69] * plg[0][3] + p[70] * plg[0][5]) * m.cos(m.turn((sec - p[71]) / SecondsPerDay)))
    + swc11 * (p[76] * plg[2][3] + p[77] * plg[2][5] + p[78] * plg[2][7])
      * m.cos(m.turn((sec - p[79]) / SecondsPerDay) + 2.0 * m.deg(gLong)) * (1.0 + p[137] * dfa * swc1)
  }

  /** `t[12]` in the Ap-history mode: UT/longitude magnetic activity. */
  function UtApHistory(m: Math, p: seq<real>, plg: seq<seq<real>>, cd: Seasonal, swc5: real, swc11: real,
                       swc12: real, apt0: real, sec: real, gLong: real): real
    requires |p| > 136 && LegendreShape(plg)
  {
    apt0 * swc11 * (1.0 + p[132] * plg[0][1]) * ((p[52] * plg[1][2] + p[98] * plg[1][4] + p[67] * plg[1][6]) * m.cos(m.deg(gLong - p[97])))
    + apt0 * swc11 * swc5 * (p[133] * plg[1][1] + p[134] * plg[1][3] + p[135] * plg[1][5]) * cd.cd14 * m.cos(m.deg(gLong - p[136]))
    + apt0 * swc12 * (p[55] * plg[0][1] + p[56] * plg[0][3] + p[57] * plg[0][5]) * m.cos(m.turn((sec - p[58]) / SecondsPerDay))
  }

  /** `t[12]` in the daily-Ap mode. */
  function UtDailyAp(m: Math, p: seq<real>, plg: seq<seq<real>>, cd: Seasonal, swc5: real, swc11: real,
                     swc12: real, apdf: real, sec: real, gLong: real): real
    requires |p| > 120 && LegendreShape(plg)
  {
    apdf * swc11 * (1.0 + p[120] * plg[0][1]) * ((p[60] * plg[1][2] + p[61] * plg[1][4] + p[62] * plg[1][6]) * m.cos(m.deg(gLong - p[63])))
    + apdf * swc11 * swc5 * (p[115] * plg[1][1] + p[116] * plg[1][3] + p[117] * plg[1][5]) * cd.cd14 * m.cos(m.deg(gLong - p[118]))
    + apdf * swc12 * (p[83] * plg[0][1] + p[84] * plg[0][3] + p[85] * plg[0][5]) * m.cos(m.turn((sec - p[75]) / SecondsPerDay))
  }

  /** Whether the longitude-dependent terms of `globe7` are evaluated. */
  predicate LongitudeTermsOn(sw: seq<real>, gLong: real)
    requires |sw| == 24
  {
    sw[10] != 0.0 && gLong > -1000.0
  }

  /** Term `i` of `globe7` for coefficient row `p` (after the `p[24]`
      floor) and the refreshed cache `k`. A term whose switch is off keeps
      its initial 0, and `t[9]` is never written. */
  function Globe7Term(m: Math, p: seq<real>, k: HarmonicCache, c: Conditions, sw: seq<real>, swc: seq<real>, i: int): real
    requires |p| > 138 && CacheShape(k) && |sw| == 24 && |swc| == 24 && 0 <= i < 14
  {
    var df := c.f107 - c.f107A;
    var dfa := c.f107A - 150.0;
    var cd := SeasonalOf(m, c.doy, p);
    var plg := k.plg;
    var longOn := LongitudeTermsOn(sw, c.gLong);
    if i == 0 then FluxTerm(m, p, df, dfa)
    else if i == 1 then TimeIndependent(p, plg, dfa, swc[1])
    else if i == 2 then SymmetricalAnnual(p, cd)
    else if i == 3 then SymmetricalSemiannual(p, plg, cd)
    else if i == 4 then AsymmetricalAnnual(p, plg, cd, FluxFactor(p, 47, df, dfa, swc[1]))
    else if i == 5 then AsymmetricalSemiannual(p, plg, cd)
    else if i == 6 then (if sw[7] != 0.0 then Diurnal(p, plg, cd, k.h, swc[5], FluxFactor(p, 49, df, dfa, swc[1])) else 0.0)
    else if i == 7 then (if sw[8] != 0.0 then Semidiurnal(p, plg, cd, k.h, swc[5], FluxFactor(p, 49, df, dfa, swc[1])) else 0.0)
    else if i == 8 then
      (if sw[9] == -1.0 then (if p[51] != 0.0 then ApHistoryTerm(m, p, plg, cd, swc[5], swc[7], c.lst, k.apt[0]) else 0.0)
       else if sw[9] != 0.0 then DailyApTerm(m, p, plg, cd, swc[5], swc[7], c.lst, k.apdf)
       else 0.0)
    else if i == 9 then 0.0
    else if i == 10 then (if longOn && sw[11] != 0.0 then Longitudinal(m, p, plg, cd, swc[1], swc[5], dfa, c.gLong) else 0.0)
    else if i == 11 then (if longOn && sw[12] != 0.0 then UniversalTime(m, p, plg, cd, swc[1], swc[5], swc[11], dfa, c.sec, c.gLong) else 0.0)
    else if i == 12 then
      (if longOn && sw[13] != 0.0 then
         (if sw[9] == -1.0 then (if p[51] != 0.0 then UtApHistory(m, p, plg, cd, swc[5], swc[11], swc[12], k.apt[0], c.sec, c.gLong) else 0.0)
          else UtDailyAp(m, p, plg, cd, swc[5], swc[11], swc[12], k.apdf, c.sec, c.gLong))
       else 0.0)
    else (if sw[14] != 0.0 then Terdiurnal(p, plg, cd, k.h, swc[5], FluxFactor(p, 49, df, dfa, swc[1])) else 0.0)
  }

  /** The 14 terms of `globe7`, with the gating of each switch. */
  function Globe7Terms(m: Math, p: seq<real>, k: HarmonicCache, c: Conditions, sw: seq<real>, swc: seq<real>): (t: seq<real>)
    requires |p| > 138 && CacheShape(k) && |sw| == 24 && |swc| == 24
    ensures |t| == 14 && t[9] == 0.0
    ensures sw[7] == 0.0 ==> t[6] == 0.0
    ensures sw[8] == 0.0 ==> t[7] == 0.0
    ensures sw[9] == 0.0 ==> t[8] == 0.0
    ensures sw[14] == 0.0 ==> t[13] == 0.0
    ensures !LongitudeTermsOn(sw, c.gLong) ==> t[10] == 0.0 && t[11] == 0.0 && t[12] == 0.0
    ensures sw[9] == -1.0 && p[51] == 0.0 ==> t[8] == 0.0 && t[12] == 0.0
  {
    seq(14, i requires 0 <= i < 14 => Globe7Term(m, p, k, c, sw, swc, i))
  }

  /** Whether `globe7` refreshes the local-time harmonics: unless the
      diurnal, semidiurnal and terdiurnal switches are all off. */
  predicate LocalTimeOn(sw: seq<real>)
    requires |sw| == 24
  {
    !(sw[7] == 0.0 && sw[8] == 0.0 && sw[14] == 0.0)
  }

  /** Whether `globe7` evaluates the Ap history (and floors `p[24]`). */
  predicate HistoryOn(p: seq<real>, sw: seq<real>)
    requires |p| > 51 && |sw| == 24
  {
    sw[9] == -1.0 && p[51] != 0.0
  }

  /** The coefficient row after `globe7`. */
  function Globe7Row(p: seq<real>, sw: seq<real>): (q: seq<real>)
    requires |p| > 51 && |sw| == 24
    ensures |q| == |p|
    ensures forall i :: 0 <= i < |p| && i != 24 ==> q[i] == p[i]
    ensures q[24] == (if HistoryOn(p, sw) && p[24] < 1.0e-4 then 1.0e-4 else p[24])
  {
    if HistoryOn(p, sw) then FlooredRow(p) else p
  }

  /** The cache after `globe7`: the Legendre table at the latitude, the
      harmonics at the local time (unless all local-time switches are off),
      `dfa`, and `apt[0]` (Ap-history mode) or `apdf` (daily-Ap mode). */
  function Globe7Cache(m: Math, p: seq<real>, k: HarmonicCache, c: Conditions, sw: seq<real>): (r: HarmonicCache)
    requires |p| > 138 && CacheShape(k) && |sw| == 24 && |c.apA| == 7
    ensures CacheShape(r)
    ensures r.plg == LegendreUpdate(m.sin(m.deg(c.gLat)), m.cos(m.deg(c.gLat)), k.plg)
    ensures r.h == (if LocalTimeOn(sw) then HarmonicsAt(m, c.lst) else k.h)
    ensures r.dfa == c.f107A - 150.0
    ensures sw[9] == -1.0 ==> r.apdf == k.apdf
    ensures sw[9] != -1.0 ==> r.apdf == ApdfOf(m, p, c.ap) && r.apt == k.apt
    ensures !HistoryOn(p, sw) ==> r.apt == k.apt
    ensures HistoryOn(p, sw) ==> r.apt == k.apt[0 := Sg0(m, HistoryDecay(m, p, c.gLat), FlooredRow(p), c.apA)]
  {
    var plg := LegendreUpdate(m.sin(m.deg(c.gLat)), m.cos(m.deg(c.gLat)), k.plg);
    var h := if LocalTimeOn(sw) then HarmonicsAt(m, c.lst) else k.h;
    var dfa := c.f107A - 150.0;
    if sw[9] == -1.0 then
      var apt := if p[51] != 0.0 then k.apt[0 := Sg0(m, HistoryDecay(m, p, c.gLat), FlooredRow(p), c.apA)] else k.apt;
      HarmonicCache(dfa, plg, h, k.apdf, apt)
    else
      HarmonicCache(dfa, plg, h, ApdfOf(m, p, c.ap), k.apt)
  }

  // ------------------------------------------------------------ glob7s

  /** Parameter-set tag `glob7s` expects in `p[99]`. */
  const LowerParameterSet: real := 2.0

  /** `t[0]` of `glob7s`: the flux term. */
  function LowerFlux(p: seq<real>, dfa: real): real
    requires |p| > 21
  {
    p[21] * dfa
  }

  /** `t[1]` of `glob7s`: the time-independent term. */
  function LowerTimeIndependent(p: seq<real>, plg: seq<seq<real>>): real
    requires |p| > 59 && LegendreShape(plg)
  {
    p[1] * plg[0][2] + p[2] * plg[0][4] + p[22] * plg[0][6] + p[26] * plg[0][1] + p[14] * plg[0][3] + p[59] * plg[0][5]
  }

  /** `t[2]` of `glob7s`: the symmetrical annual term. */
  function LowerSymmetricalAnnual(p: seq<real>, plg: seq<seq<real>>, cd: Seasonal): real
    requires |p| > 47 && LegendreShape(plg)
  {
    (p[18] + p[47] * plg[0][2] + p[29] * plg[0][4]) * cd.cd32
  }

  /** `t[3]` of `glob7s`: the symmetrical semiannual term. */
  function LowerSymmetricalSemiannual(p: seq<real>, plg: seq<seq<real>>, cd: Seasonal): real
    requires |p| > 30 && LegendreShape(plg)
  {
    (p[15] + p[16] * plg[0][2] + p[30] * plg[0][4]) * cd.cd18
  }

  /** `t[4]` of `glob7s`: the asymmetrical annual term. */
  function LowerAsymmetricalAnnual(p: seq<real>, plg: seq<seq<real>>, cd: Seasonal): real
    requires |p| > 20 && LegendreShape(plg)
  {
    (p[9] * plg[0][1] + p[10] * plg[0][3] + p[20] * plg[0][5]) * cd.cd14
  }

  /** `t[6]` of `glob7s`: the diurnal term, without flux factor. */
  function LowerDiurnal(p: seq<real>, plg: seq<seq<real>>, cd: Seasonal, h: Harmonics, swc5: real): real
    requires |p| > 12 && LegendreShape(plg)
  {
    var t71 := p[11] * plg[1][2] * cd.cd14 * swc5;
    var t72 := p[12] * plg[1][2] * cd.cd14 * swc5;
    (p[3] * plg[1][1] + p[4] * plg[1][3] + t71) * h.ctloc + (p[6] * plg[1][1] + p[7] * plg[1][3] + t72) * h.stloc
  }

  /** `t[8]` of `glob7s` in the daily-Ap mode (`sw[9] == 1`). */
  function LowerDailyAp(p: seq<real>, plg: seq<seq<real>>, swc2: real, apdf: real): real
    requires |p| > 45 && LegendreShape(plg)
  {
    apdf * (p[32] + p[45] * plg[0][2] * swc2)
  }

  /** `t[8]` of `glob7s` in the Ap-history mode (`sw[9] == -1`). */
  function LowerApHistory(p: seq<real>, plg: seq<seq<real>>, swc2: real, apt0: real): real
    requires |p| > 96 && LegendreShape(plg)
  {
    p[50] * apt0 + p[96] * plg[0][2] * apt0 * swc2
  }

  /** `t[13]` of `glob7s`: the terdiurnal term. */
  function LowerTerdiurnal(p: seq<real>, plg: seq<seq<real>>, h: Harmonics): real
    requires |p| > 40 && LegendreShape(plg)
  {
    p[39] * plg[3][3] * h.s3tloc + p[40] * plg[3][3] * h.c3tloc
  }

  /** `t[10]` of `glob7s`: the longitudinal term with seasonal modulation. */
  function LowerLongitudinal(m: Math, p: seq<real>, plg: seq<seq<real>>, swc: seq<real>, doy: real, gLong: real): real
    requires |p| > 92 && LegendreShape(plg) && |swc| == 24
  {
    (1.0
     + plg[0][1] * (p[80] * swc[5] * m.cos(m.doy(doy - p[81])) + p[85] * swc[6] * m.cos(m.doy(2.0 * (doy - p[86]))))
     + p[83] * swc[3] * m.cos(m.doy(doy - p[84]))
     + p[87] * swc[4] * m.cos(m.doy(2.0 * (doy - p[88]))))
    * ((p[64] * plg[1][2] + p[65] * plg[1][4] + p[66] * plg[1][6] + p[74] * plg[1][1] + p[75] * plg[1][3] + p[76] * plg[1][5])
       * m.cos(m.deg(gLong))
       + (p[90] * plg[1][2] + p[91] * plg[1][4] + p[92] * plg[1][6] + p[77] * plg[1][1] + p[78] * plg[1][3] + p[79] * plg[1][5])
       * m.sin(m.deg(gLong)))
  }

  /** Term `i` of `glob7s` for coefficient row `p` and the cache `k` left
      by the last `globe7`; `t[9]`, `t[11]` and `t[12]` are never written. */
  function Glob7sTerm(m: Math, p: seq<real>, k: HarmonicCache, c: Conditions, sw: seq<real>, swc: seq<real>, i: int): real
    requires |p| >= 100 && CacheShape(k) && |sw| == 24 && |swc| == 24 && 0 <= i < 14
  {
    var cd := SeasonalOf(m, c.doy, p);
    var plg := k.plg;
    if i == 0 then LowerFlux(p, k.dfa)
    else if i == 1 then LowerTimeIndependent(p, plg)
    else if i == 2 then LowerSymmetricalAnnual(p, plg, cd)
    else if i == 3 then LowerSymmetricalSemiannual(p, plg, cd)
    else if i == 4 then LowerAsymmetricalAnnual(p, plg, cd)
    else if i == 5 then AsymmetricalSemiannual(p, plg, cd)
    else if i == 6 then (if sw[7] != 0.0 then LowerDiurnal(p, plg, cd, k.h, swc[5]) else 0.0)
    else if i == 7 then (if sw[8] != 0.0 then Semidiurnal(p, plg, cd, k.h, swc[5], 1.0) else 0.0)
    else if i == 8 then
      (if sw[9] == 1.0 then LowerDailyAp(p, plg, swc[2], k.apdf)
       else if sw[9] == -1.0 then LowerApHistory(p, plg, swc[2], k.apt[0])
       else 0.0)
    else if i == 10 then
      (if !(sw[10] == 0.0 || sw[11] == 0.0 || c.gLong <= -1000.0) then LowerLongitudinal(m, p, plg, swc, c.doy, c.gLong) else 0.0)
    else if i == 13 then (if sw[14] != 0.0 then LowerTerdiurnal(p, plg, k.h) else 0.0)
    else 0.0
  }

  /** The 14 terms of `glob7s`, with the gating of each switch. */
  function Glob7sTerms(m: Math, p: seq<real>, k: HarmonicCache, c: Conditions, sw: seq<real>, swc: seq<real>): (t: seq<real>)
    requires |p| >= 100 && CacheShape(k) && |sw| == 24 && |swc| == 24
    ensures |t| == 14 && t[9] == 0.0 && t[11] == 0.0 && t[12] == 0.0
    ensures sw[7] == 0.0 ==> t[6] == 0.0
    ensures sw[8] == 0.0 ==> t[7] == 0.0
    ensures sw[9] == 0.0 ==> t[8] == 0.0
    ensures sw[14] == 0.0 ==> t[13] == 0.0
    ensures sw[10] == 0.0 || sw[11] == 0.0 || c.gLong <= -1000.0 ==> t[10] == 0.0
  {
    seq(14, i requires 0 <= i < 14 => Glob7sTerm(m, p, k, c, sw, swc, i))
  }

  /** The outcome of the tag check of `glob7s`: a zero tag is replaced by 2,
      and any tag other than 2 is refused. */
  function CheckedTag(tag: real): (r: Result<real>)
    ensures r.Success? <==> tag == 0.0 || tag == LowerParameterSet
    ensures r.Success? ==> r.value == LowerParameterSet
    ensures r.Failure? ==> r.error == InvalidValue
  {
    if tag == 0.0 || tag == LowerParameterSet then Success(LowerParameterSet) else Failure(InvalidValue)
  }
}
