/** The value types of the GeoAtmos facade: the switch record a user
    configures the model with, the magnetic index, and the named densities and
    temperatures the facade hands back. */
module GeoAtmosTypes {

  /** The state of one model switch. */
  datatype SwitchStatus = Off | On | Specific

  /** `static_cast<int>` of a status: its position in the enumeration. */
  function Ordinal(s: SwitchStatus): (k: int)
    ensures 0 <= k <= 2
    ensures (k == 0 <==> s == Off) && (k == 1 <==> s == On) && (k == 2 <==> s == Specific)
  {
    match s
    case Off => 0
    case On => 1
    case Specific => 2
  }

  /** Position of the daily-Ap switch in the engine's switch array. */
  const DailyApIndex: int := 9

  /** The 24 model switches, in the order the engine numbers them. */
  datatype ModelConfig = ModelConfig(
    unitConversion: SwitchStatus,
    f107Effect: SwitchStatus,
    timeIndependent: SwitchStatus,
    symmetricalAnnual: SwitchStatus,
    symmetricalSemiannual: SwitchStatus,
    asymmetricalAnnual: SwitchStatus,
    asymmetricalSemiannual: SwitchStatus,
    diurnal: SwitchStatus,
    semidiurnal: SwitchStatus,
    dailyAp: SwitchStatus,
    allUtLongEffect: SwitchStatus,
    longitudinal: SwitchStatus,
    utAndMixedUtLong: SwitchStatus,
    mixedApUtLong: SwitchStatus,
    terdiurnal: SwitchStatus,
    departuresFromDiffEqu: SwitchStatus,
    varAllExosphericTemp: SwitchStatus,
    varAllFrom120kmTemp: SwitchStatus,
    varLowThermosphereTemp: SwitchStatus,
    varAll120kmGrad: SwitchStatus,
    varUpStratosphereTemp: SwitchStatus,
    varAll120km: SwitchStatus,
    varAllLowMesosphereTemp: SwitchStatus,
    varTurbopauseScaleHeight: SwitchStatus)
  {
    /** Switch `i` in declaration order: field i is engine switch i. */
    function Field(i: int): SwitchStatus
      requires 0 <= i < 24
    {
      if i == 0 then unitConversion
      else if i == 1 then f107Effect
      else if i == 2 then timeIndependent
      else if i == 3 then symmetricalAnnual
      else if i == 4 then symmetricalSemiannual
      else if i == 5 then asymmetricalAnnual
      else if i == 6 then asymmetricalSemiannual
      else if i == 7 then diurnal
      else if i == 8 then semidiurnal
      else if i == 9 then dailyAp
      else if i == 10 then allUtLongEffect
      else if i == 11 then longitudinal
      else if i == 12 then utAndMixedUtLong
      else if i == 13 then mixedApUtLong
      else if i == 14 then terdiurnal
      else if i == 15 then departuresFromDiffEqu
      else if i == 16 then varAllExosphericTemp
      else if i == 17 then varAllFrom120kmTemp
      else if i == 18 then varLowThermosphereTemp
      else if i == 19 then varAll120kmGrad
      else if i == 20 then varUpStratosphereTemp
      else if i == 21 then varAll120km
      else if i == 22 then varAllLowMesosphereTemp
      else varTurbopauseScaleHeight
    }
  }

  /** The record as the default constructor builds it. */
  function DefaultModelConfig(): (c: ModelConfig)
    ensures c.Field(0) == Off
    ensures forall i :: 1 <= i < 24 ==> c.Field(i) == On
  {
    ModelConfig(Off, On, On, On, On, On, On, On, On, On, On, On,
                On, On, On, On, On, On, On, On, On, On, On, On)
  }

  /** The integer code of switch `i` in status `s`: its ordinal, except that
      a Specific daily-Ap switch is coded -1. */
  function NativeCode(i: int, s: SwitchStatus): (k: int)
    ensures i != DailyApIndex ==> k == Ordinal(s)
    ensures i == DailyApIndex ==> (k == -1 <==> s == Specific)
  {
    if i == DailyApIndex && s == Specific then -1 else Ordinal(s)
  }

  /** `convertNativeStatus`: the engine's integer switch array, field by
      field in declaration order. */
  function ConvertNativeStatus(c: ModelConfig): (switches: seq<int>)
    ensures |switches| == 24
  {
    seq(24, i requires 0 <= i < 24 => NativeCode(i, c.Field(i)))
  }

  /** The integer arrays `convertNativeStatus` can produce: 0, 1 or 2 on
      every switch but the daily-Ap one, which is -1, 0 or 1. */
  predicate NativeSwitches(s: seq<int>)
  {
    && |s| == 24
    && (forall i :: 0 <= i < 24 && i != DailyApIndex ==> 0 <= s[i] <= 2)
    && -1 <= s[DailyApIndex] <= 1
  }

  /** The status whose ordinal is `k`. */
  function StatusOf(k: int): (s: SwitchStatus)
    requires 0 <= k <= 2
    ensures Ordinal(s) == k
  {
    if k == 0 then Off else if k == 1 then On else Specific
  }

  /** The status the daily-Ap entry `k` stands for, -1 meaning Specific. */
  function DailyApStatusOf(k: int): (s: SwitchStatus)
    requires -1 <= k <= 1
    ensures (k == -1 <==> s == Specific) && (k >= 0 ==> Ordinal(s) == k)
  {
    if k == -1 then Specific else StatusOf(k)
  }

  /** Reads a switch record back from its native integer array. */
  function ConfigOfNative(s: seq<int>): (c: ModelConfig)
    requires NativeSwitches(s)
  {
    ModelConfig(StatusOf(s[0]), StatusOf(s[1]), StatusOf(s[2]), StatusOf(s[3]), StatusOf(s[4]),
                StatusOf(s[5]), StatusOf(s[6]), StatusOf(s[7]), StatusOf(s[8]),
                DailyApStatusOf(s[9]),
                StatusOf(s[10]), StatusOf(s[11]), StatusOf(s[12]), StatusOf(s[13]), StatusOf(s[14]),
                StatusOf(s[15]), StatusOf(s[16]), StatusOf(s[17]), StatusOf(s[18]), StatusOf(s[19]),
                StatusOf(s[20]), StatusOf(s[21]), StatusOf(s[22]), StatusOf(s[23]))
  }

  /** Every switch is coded by its ordinal, except a Specific daily-Ap
      switch, which is coded -1; so the result is always of the native form. */
  lemma NativeStatusCodes(c: ModelConfig)
    ensures forall i :: 0 <= i < 24 && i != DailyApIndex ==> ConvertNativeStatus(c)[i] == Ordinal(c.Field(i))
    ensures ConvertNativeStatus(c)[DailyApIndex] == (if c.dailyAp == Specific then -1 else Ordinal(c.dailyAp))
    ensures NativeSwitches(ConvertNativeStatus(c))
  {
  }

  /** The record can be read back from its native array. */
  lemma NativeStatusRoundTrip(c: ModelConfig)
    ensures NativeSwitches(ConvertNativeStatus(c))
    ensures ConfigOfNative(ConvertNativeStatus(c)) == c
  {
    NativeStatusCodes(c);
  }

  /** Every array of the native form is the conversion of exactly one record. */
  lemma NativeArrayRoundTrip(s: seq<int>)
    requires NativeSwitches(s)
    ensures ConvertNativeStatus(ConfigOfNative(s)) == s
  {
  }

  /** The magnetic index: daily Ap followed by six 3-hour Ap values and
      averages, as the engine's `ap_a` array. */
  datatype MagneticIndex = MagneticIndex(ap: seq<real>)

  /** The default magnetic index: quiet conditions, every entry 4. */
  function DefaultMagneticIndex(): (r: MagneticIndex)
    ensures |r.ap| == 7 && forall i :: 0 <= i < 7 ==> r.ap[i] == 4.0
  {
    MagneticIndex([4.0, 4.0, 4.0, 4.0, 4.0, 4.0, 4.0])
  }

  /** The seven-argument constructor: the arguments in order. */
  function MagneticIndexOf(apA: real, apKp: real, apAo: real, apAp: real, apAe: real, apAl: real, apAf: real): (r: MagneticIndex)
    ensures |r.ap| == 7
    ensures r.ap[0] == apA && r.ap[1] == apKp && r.ap[2] == apAo && r.ap[3] == apAp
    ensures r.ap[4] == apAe && r.ap[5] == apAl && r.ap[6] == apAf
  {
    MagneticIndex([apA, apKp, apAo, apAp, apAe, apAl, apAf])
  }

  /** Units the facade can report densities in. */
  datatype DensityUnit = GramPerCm3 | KgPerM3 | Cgs | Si

  /** Number densities of the species and the total mass density. */
  datatype Density = Density(
    atomicHydrogen: real,
    atomicHelium: real,
    atomicNitrogen: real,
    atomicOxygen: real,
    atomicArgon: real,
    molecularNitrogen: real,
    molecularOxygen: real,
    anomalousOxygen: real,
    atmosphere: real)

  /** The default density: every field 0. */
  function DefaultDensity(): (r: Density)
    ensures r.atomicHydrogen == 0.0 && r.atomicHelium == 0.0 && r.atomicNitrogen == 0.0
    ensures r.atomicOxygen == 0.0 && r.atomicArgon == 0.0 && r.molecularNitrogen == 0.0
    ensures r.molecularOxygen == 0.0 && r.anomalousOxygen == 0.0 && r.atmosphere == 0.0
  {
    Density(0.0, 0.0, 0.0, 0.0, 0.0, 0.0, 0.0, 0.0, 0.0)
  }

  /** Exospheric temperature and temperature at the requested altitude. */
  datatype Temperature = Temperature(atExosphere: real, atAltitude: real)

  datatype AtmosphericParameters = AtmosphericParameters(density: Density, temperature: Temperature)
}
