/** The records the engine reads and fills: the switch arrays, the input
    and the output. The engine updates them in place (`tselec` writes the
    switch weights, `gtd7` and `ghp7` move the altitude, `gts7` fills the
    densities one by one), so each is a class over fixed-size arrays. */
module NativeTypes {

  /** Number of model switches. */
  const SwitchCount: int := 24

  /** `NrlmsiseConfig`: the integer switches and the weights `tselec`
      derives from them. */
  class NrlmsiseConfig {
    const switches: seq<int>
    const sw: array<real>
    const swc: array<real>

    ghost predicate Valid()
    {
      |switches| == SwitchCount && sw.Length == SwitchCount && swc.Length == SwitchCount && sw != swc
    }

    /** A record holding `switches`; the weights are filled by `tselec`. */
    constructor (switches: seq<int>)
      requires |switches| == SwitchCount
      ensures Valid() && this.switches == switches && fresh(sw) && fresh(swc)
    {
      this.switches := switches;
      sw := new real[SwitchCount](_ => 0.0);
      swc := new real[SwitchCount](_ => 0.0);
    }
  }

  /** `NrlmsiseInput`: the time, position, solar flux and magnetic activity
      of one evaluation. `doy` is the day of the year, `sec` the seconds of
      the day, `alt` the altitude in km, `lst` the local solar time in hours,
      `ap` the daily Ap and `apA` the Ap history array. */
  class NrlmsiseInput {
    const year: int
    const doy: int
    const sec: real
    var alt: real
    const gLat: real
    const gLong: real
    const lst: real
    const f107A: real
    const f107: real
    const ap: real
    const apA: seq<real>

    ghost predicate Valid()
    {
      |apA| == 7
    }

    constructor (year: int, doy: int, sec: real, alt: real, gLat: real, gLong: real, lst: real,
                 f107A: real, f107: real, ap: real, apA: seq<real>)
      requires |apA| == 7
      ensures Valid() && this.apA == apA
      ensures this.year == year && this.doy == doy && this.sec == sec && this.alt == alt
      ensures this.gLat == gLat && this.gLong == gLong && this.lst == lst
      ensures this.f107A == f107A && this.f107 == f107 && this.ap == ap
    {
      this.year := year;
      this.doy := doy;
      this.sec := sec;
      this.alt := alt;
      this.gLat := gLat;
      this.gLong := gLong;
      this.lst := lst;
      this.f107A := f107A;
      this.f107 := f107;
      this.ap := ap;
      this.apA := apA;
    }
  }

  /** Index of the total mass density in `NrlmsiseOutput.d`; the other eight
      entries are number densities: He, O, N2, O2, Ar, -, H, N, anomalous O. */
  const MassIndex: int := 5

  /** `NrlmsiseOutput`: nine densities and two temperatures (exospheric and
      at the altitude). */
  class NrlmsiseOutput {
    const d: array<real>
    const t: array<real>

    ghost predicate Valid()
    {
      d.Length == 9 && t.Length == 2
    }

    constructor ()
      ensures Valid() && fresh(d) && fresh(t)
    {
      d := new real[9](_ => 0.0);
      t := new real[2](_ => 0.0);
    }
  }
}
