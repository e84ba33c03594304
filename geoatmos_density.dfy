/** The GeoAtmos facade: a density model that owns an NRLMSISE-00 engine
    and a switch record. Each evaluation converts the record to the
    engine's integer switches (first forcing the daily-Ap switch to suit
    the kind of magnetic index given), assembles the engine's input from a
    geodetic position, runs `gtd7` and names the entries of the output. */
module GeoAtmosFacade {
  import opened Numerics
  import opened GeoAtmosTypes
  import opened NativeTypes
  import opened MsisFunctions
  import opened MsisHarmonics
  import opened MsisTables
  import opened MsisDriver
  import opened MsisEngine

  /** A geodetic position and its epoch, as the `Wgs84` accessors give
      them: height above the ellipsoid in metres, latitude and longitude in
      degrees, and the year, day of year and seconds of the day. */
  datatype Position = Position(altitude: real, latitude: real, longitude: real, year: int, doy: int, sec: real)

  /** Metres to the engine's kilometres. */
  function Kilometres(metres: real): (km: real)
    ensures km * 1000.0 == metres
  {
    metres * 1e-3
  }

  /** The approximate local solar time the facade supplies, in hours: the
      universal time of day shifted by one hour per 15 degrees of east
      longitude. */
  function LocalSolarTime(sec: real, longitude: real): (lst: real)
    ensures longitude == 0.0 ==> lst * 3600.0 == sec
  {
    sec / 3600.0 + longitude / 15.0
  }

  /** Fifteen degrees further east is one hour later. */
  lemma LocalSolarTimeShift(sec: real, longitude: real)
    ensures LocalSolarTime(sec, longitude + 15.0) == LocalSolarTime(sec, longitude) + 1.0
  {
  }

  /** The conditions the facade hands the engine for `pos`, the solar flux
      and the magnetic activity `ap`/`apA`. */
  function InputConditions(pos: Position, f107A: real, f107: real, ap: real, apA: seq<real>): (c: Conditions)
    requires |apA| == 7
    ensures c.doy == pos.doy as real && c.sec == pos.sec && c.gLat == pos.latitude && c.gLong == pos.longitude
    ensures c.lst == LocalSolarTime(pos.sec, pos.longitude)
    ensures c.f107A == f107A && c.f107 == f107 && c.ap == ap && c.apA == apA
  {
    Conditions(pos.doy as real, pos.sec, pos.latitude, pos.longitude, LocalSolarTime(pos.sec, pos.longitude),
               f107A, f107, ap, apA)
  }

  /** The engine's input record for `pos`, built field by field. `ap` and
      `apA` stand for the entry the overload leaves unset as well as the one
      it fills. */
  method AssembleInput(pos: Position, f107A: real, f107: real, ap: real, apA: seq<real>) returns (input: NrlmsiseInput)
    requires |apA| == 7
    ensures fresh(input) && input.Valid()
    ensures input.alt == Kilometres(pos.altitude) && input.year == pos.year
    ensures ConditionsOf(input) == InputConditions(pos, f107A, f107, ap, apA)
  {
    var alt := pos.altitude * 1e-3;
    var sec := pos.sec;
    var lst := sec / 3600.0 + pos.longitude / 15.0;
    input := new NrlmsiseInput(pos.year, pos.doy, sec, alt, pos.latitude, pos.longitude, lst, f107A, f107, ap, apA);
  }

  // ------------------------------------------------------------- units

  /** The unit-conversion switch a density unit selects: off for the
      CGS units (cm^-3, g/cm^3), on for the SI ones (m^-3, kg/m^3). */
  function UnitSwitch(unit: DensityUnit): (s: SwitchStatus)
    ensures s == Off <==> unit == GramPerCm3 || unit == Cgs
    ensures s == On <==> unit == KgPerM3 || unit == Si
  {
    match unit
    case GramPerCm3 => Off
    case KgPerM3 => On
    case Cgs => Off
    case Si => On
  }

  /** After `configureDensityUnit` the engine reports metric values exactly
      for the SI units, whatever the other switches say. */
  lemma UnitSwitchMetric(c: ModelConfig, unit: DensityUnit)
    ensures Metric(ConvertNativeStatus(c.(unitConversion := UnitSwitch(unit)))) <==> unit == KgPerM3 || unit == Si
  {
    NativeStatusCodes(c.(unitConversion := UnitSwitch(unit)));
  }

  // ------------------------------------------------------ daily-Ap mode

  /** The daily-Ap setting the scalar-Ap overload evaluates with: a
      Specific setting (left by the index overload) goes back to On. */
  function ScalarApMode(s: SwitchStatus): (r: SwitchStatus)
    ensures r != Specific
    ensures s != Specific ==> r == s
  {
    if s == Specific then On else s
  }

  /** With the daily-Ap switch Specific the engine's switch 9 is -1, so its
      weight is -1 and the expansions read the Ap history. */
  lemma IndexModeSwitches(c: ModelConfig)
    ensures var s := ConvertNativeStatus(c.(dailyAp := Specific));
      s[DailyApIndex] == -1 && SwitchWeights(s)[DailyApIndex] == -1.0 && CrossWeights(s)[DailyApIndex] == -1.0
  {
    NativeStatusCodes(c.(dailyAp := Specific));
  }

  /** In the scalar-Ap mode switch 9 is 0 or 1, and its weights equal it,
      so the expansions read the daily Ap; every other switch keeps its
      code. */
  lemma ScalarModeSwitches(c: ModelConfig)
    ensures var s := ConvertNativeStatus(c.(dailyAp := ScalarApMode(c.dailyAp)));
      && (s[DailyApIndex] == 0 || s[DailyApIndex] == 1)
      && SwitchWeights(s)[DailyApIndex] == s[DailyApIndex] as real
      && (forall i :: 0 <= i < 24 && i != DailyApIndex ==> s[i] == ConvertNativeStatus(c)[i])
  {
    NativeStatusCodes(c);
    NativeStatusCodes(c.(dailyAp := ScalarApMode(c.dailyAp)));
  }

  // ------------------------------------------------------------ results

  /** The named densities and temperatures of an engine output: H is d[6],
      He d[0], N d[7], O d[1], Ar d[4], N2 d[2], O2 d[3], anomalous O d[8],
      the total mass density d[5]; t[0] is exospheric, t[1] local. */
  function ParametersOf(d: seq<real>, t: seq<real>): (p: AtmosphericParameters)
    requires |d| == 9 && |t| == 2
  {
    AtmosphericParameters(
      Density(d[6], d[0], d[7], d[1], d[4], d[2], d[3], d[8], d[5]),
      Temperature(t[0], t[1]))
  }

  /** The engine's output arrays a set of named parameters comes from. */
  function ArraysOf(p: AtmosphericParameters): (r: (seq<real>, seq<real>))
    ensures |r.0| == 9 && |r.1| == 2
  {
    var n := p.density;
    ([n.atomicHelium, n.atomicOxygen, n.molecularNitrogen, n.molecularOxygen, n.atomicArgon,
      n.atmosphere, n.atomicHydrogen, n.atomicNitrogen, n.anomalousOxygen],
     [p.temperature.atExosphere, p.temperature.atAltitude])
  }

  /** Naming loses nothing: each entry of the output lands in exactly one
      field, and the arrays can be rebuilt from the fields. */
  lemma ParametersRoundTrip(d: seq<real>, t: seq<real>, p: AtmosphericParameters)
    requires |d| == 9 && |t| == 2
    ensures ArraysOf(ParametersOf(d, t)) == (d, t)
    ensures ParametersOf(ArraysOf(p).0, ArraysOf(p).1) == p
  {
    assert ArraysOf(ParametersOf(d, t)).0 == d;
    assert ArraysOf(ParametersOf(d, t)).1 == t;
  }

  /** The total mass density of named number densities: 1.66e-24 g per
      atomic mass unit times 4 He + 16 O + 28 N2 + 32 O2 + 40 Ar + H + 14 N. */
  function MassOfSpecies(n: Density): real
  {
    AtomicMassUnit * (4.0 * n.atomicHelium + 16.0 * n.atomicOxygen + 28.0 * n.molecularNitrogen
                      + 32.0 * n.molecularOxygen + 40.0 * n.atomicArgon + n.atomicHydrogen + 14.0 * n.atomicNitrogen)
  }

  /** The atmosphere field of `p` is the total mass density of its species,
      in kg/m^3 (the g/cm^3 figure divided by 1000) when the unit switch of
      `config` is On. */
  predicate MassReported(p: AtmosphericParameters, config: ModelConfig)
  {
    p.density.atmosphere
      == if config.unitConversion == On then MassOfSpecies(p.density) / 1000.0 else MassOfSpecies(p.density)
  }

  /** What an evaluation reports for the engine's outcome `g`: the same
      error, or the named output. */
  ghost predicate Reported(g: Result<Gtd7Evaluation>, r: Result<AtmosphericParameters>)
  {
    && (r.Failure? <==> g.Failure?) && (r.Failure? ==> r.error == g.error)
    && (g.Success? ==> |g.value.d| == 9 && |g.value.t| == 2 && r.value == ParametersOf(g.value.d, g.value.t))
  }

  /** Every successful report of a mass-consistent engine output is
      mass-consistent in its own terms: the atmosphere field is the weighted
      sum of the species fields, in kg/m^3 (divided by 1000) when the unit
      switch is On. */
  lemma ReportedMass(g: Result<Gtd7Evaluation>, r: Result<AtmosphericParameters>, config: ModelConfig)
    requires Reported(g, r)
    requires g.Success? ==> |g.value.d| == 9 && MassConsistent(g.value.d, Metric(ConvertNativeStatus(config)))
    ensures r.Success? ==> MassReported(r.value, config)
  {
    NativeStatusCodes(config);
  }

  /** `GeoAtmosDensity`: the engine and the stored switch record. */
  class GeoAtmosDensity {
    var config: ModelConfig
    const engine: Nrlmsise

    ghost predicate Valid()
      reads this, engine
    {
      engine.Valid()
    }

    /** The default model: default switches (CGS units). */
    constructor (tables: Tables)
      requires TablesShape(tables)
      ensures Valid() && fresh(engine) && engine.tables == tables && config == DefaultModelConfig()
    {
      engine := new Nrlmsise(tables);
      config := DefaultModelConfig();
    }

    /** The default model reporting in `unit`. */
    constructor WithUnit(tables: Tables, unit: DensityUnit)
      requires TablesShape(tables)
      ensures Valid() && fresh(engine) && engine.tables == tables
      ensures config == DefaultModelConfig().(unitConversion := UnitSwitch(unit))
    {
      engine := new Nrlmsise(tables);
      config := DefaultModelConfig();
      new;
      ConfigureDensityUnit(unit);
    }

    /** A model with the switch record `config`. */
    constructor WithConfig(tables: Tables, config: ModelConfig)
      requires TablesShape(tables)
      ensures Valid() && fresh(engine) && engine.tables == tables && this.config == config
    {
      engine := new Nrlmsise(tables);
      this.config := config;
    }

    /** `configureModel`: replaces the switch record. */
    method ConfigureModel(config: ModelConfig)
      modifies this`config
      ensures this.config == config
    {
      this.config := config;
    }

    /** `configureDensityUnit`: sets the unit-conversion switch for `unit`
        and leaves every other switch as it was. */
    method ConfigureDensityUnit(unit: DensityUnit)
      modifies this`config
      ensures config == old(config).(unitConversion := UnitSwitch(unit))
    {
      match unit
      case GramPerCm3 => config := config.(unitConversion := Off);
      case KgPerM3 => config := config.(unitConversion := On);
      case Cgs => config := config.(unitConversion := Off);
      case Si => config := config.(unitConversion := On);
    }

    /** The evaluation with an Ap history: the stored daily-Ap switch
        becomes Specific for good, the seven entries of `ap` go to the
        engine's history in order, and `gtd7` runs at `pos`. The engine's
        scalar daily Ap is not set by this overload; `unsetAp` stands for
        whatever it holds. */
    method EvaluateWithIndex(m: Math, pos: Position, f107A: real, f107: real, ap: MagneticIndex, unsetAp: real)
      returns (r: Result<AtmosphericParameters>)
      requires Valid() && |ap.ap| == 7
      modifies this`config, engine, engine.tn1, engine.tgn1, engine.tn2, engine.tgn2, engine.tn3, engine.tgn3
      ensures Valid() && config == old(config).(dailyAp := Specific)
      ensures var g := Gtd7Spec(m, old(engine.State()), InputConditions(pos, f107A, f107, unsetAp, ap.ap),
                                Kilometres(pos.altitude), ConvertNativeStatus(config));
        && Reported(g, r)
        && (g.Success? ==> engine.State() == g.value.engine)
      ensures r.Success? ==> MassReported(r.value, config)
    {
      hide Gtd7Spec;
      config := config.(dailyAp := Specific);
      r := Evaluate(m, pos, f107A, f107, unsetAp, ap.ap);
    }

    /** The evaluation with a daily Ap: a Specific daily-Ap switch goes
        back to On for good (Off and On stay), `ap` is the engine's daily
        Ap, and `gtd7` runs at `pos`. The engine's Ap history is not set by
        this overload; `unsetApA` stands for whatever it holds. */
    method EvaluateWithAp(m: Math, pos: Position, f107A: real, f107: real, ap: real, unsetApA: seq<real>)
      returns (r: Result<AtmosphericParameters>)
      requires Valid() && |unsetApA| == 7
      modifies this`config, engine, engine.tn1, engine.tgn1, engine.tn2, engine.tgn2, engine.tn3, engine.tgn3
      ensures Valid() && config == old(config).(dailyAp := ScalarApMode(old(config.dailyAp)))
      ensures var g := Gtd7Spec(m, old(engine.State()), InputConditions(pos, f107A, f107, ap, unsetApA),
                                Kilometres(pos.altitude), ConvertNativeStatus(config));
        && Reported(g, r)
        && (g.Success? ==> engine.State() == g.value.engine)
      ensures r.Success? ==> MassReported(r.value, config)
    {
      hide Gtd7Spec;
      if config.dailyAp == Specific {
        config := config.(dailyAp := On);
      }
      r := Evaluate(m, pos, f107A, f107, ap, unsetApA);
    }

    /** The body both overloads share once the switch record is settled:
        the engine's switches from the record, the input for `pos`, `gtd7`,
        and the named output. */
    method Evaluate(m: Math, pos: Position, f107A: real, f107: real, ap: real, apA: seq<real>)
      returns (r: Result<AtmosphericParameters>)
      requires Valid() && |apA| == 7
      modifies engine, engine.tn1, engine.tgn1, engine.tn2, engine.tgn2, engine.tn3, engine.tgn3
      ensures Valid()
      ensures var g := Gtd7Spec(m, old(engine.State()), InputConditions(pos, f107A, f107, ap, apA),
                                Kilometres(pos.altitude), ConvertNativeStatus(config));
        && Reported(g, r)
        && (g.Success? ==> engine.State() == g.value.engine)
      ensures r.Success? ==> MassReported(r.value, config)
    {
      hide Gtd7Spec;
      var flags := new NrlmsiseConfig(ConvertNativeStatus(config));
      var input := AssembleInput(pos, f107A, f107, ap, apA);
      var output := new NrlmsiseOutput();
      ghost var outcome := Gtd7Spec(m, engine.State(), ConditionsOf(input), input.alt, flags.switches);
      var g := engine.Gtd7(m, input, flags, output);
      if g.Failure? {
        return Failure(g.error);
      }
      r := Success(ParametersOf(output.d[..], output.t[..]));
      ReportedMass(outcome, r, config);
    }
  }
}
