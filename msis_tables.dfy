/** The coefficient tables of the model and the two harmonic expansions as
    calls on them.

    The engine inherits its coefficient tables (`pt`, `pd`, `ps`, `pdl`,
    `ptl`, `pma`, `ptm`, `pdm`, `pavgm`) from a base class whose values are
    not part of this model; here they are a `Tables` value the engine holds.
    `globe7` and `glob7s` receive one row of them by pointer and may change
    it: `globe7` floors `p[24]` in the Ap-history mode and `glob7s` stores
    its parameter-set tag into a zero `p[99]`. A call is therefore a
    function of the tables and the harmonic cache that returns the value,
    the new tables and the new cache. */
module MsisTables {
  import opened Numerics
  import opened MsisFunctions
  import opened MsisHarmonics

  /** The coefficient tables. `pt`, `ps` and the nine rows of `pd` feed
      `globe7`; the four rows of `ptl` and the ten rows of `pma` feed
      `glob7s`; `ptm`, `pdm`, `pdl` and `pavgm` are only read. */
  datatype Tables = Tables(pt: seq<real>, ps: seq<real>, pd: seq<seq<real>>,
                           ptl: seq<seq<real>>, pma: seq<seq<real>>,
                           ptm: seq<real>, pdm: seq<seq<real>>, pdl: seq<seq<real>>, pavgm: seq<real>)

  /** A row long enough for `globe7` (it reads up to `p[138]`). */
  predicate GlobeRow(p: seq<real>)
  {
    |p| > 138
  }

  /** A row long enough for `glob7s` (it reads up to `p[99]`). */
  predicate LowerRow(p: seq<real>)
  {
    |p| >= 100
  }

  /** The dimensions the engine indexes. */
  predicate TablesShape(t: Tables)
  {
    && GlobeRow(t.pt) && GlobeRow(t.ps)
    && |t.pd| == 9 && (forall i :: 0 <= i < 9 ==> GlobeRow(t.pd[i]))
    && |t.ptl| == 4 && (forall i :: 0 <= i < 4 ==> LowerRow(t.ptl[i]))
    && |t.pma| == 10 && (forall i :: 0 <= i < 10 ==> LowerRow(t.pma[i]))
    && |t.ptm| == 10 && |t.pavgm| == 10
    && |t.pdm| == 8 && (forall i :: 0 <= i < 8 ==> |t.pdm[i]| == 10)
    && |t.pdl| == 2 && (forall i :: 0 <= i < 2 ==> |t.pdl[i]| == 25)
  }

  /** `ptm`, `pdm`, `pdl` and `pavgm` are the same in `u` as in `t`. */
  predicate ReadOnlyKept(u: Tables, t: Tables)
  {
    u.ptm == t.ptm && u.pdm == t.pdm && u.pdl == t.pdl && u.pavgm == t.pavgm
  }

  /** `globe7`'s rows are the same in `u` as in `t`. */
  predicate GlobeRowsKept(u: Tables, t: Tables)
  {
    u.pt == t.pt && u.ps == t.ps && u.pd == t.pd
  }

  /** `glob7s`'s rows are the same in `u` as in `t`. */
  predicate LowerRowsKept(u: Tables, t: Tables)
  {
    u.ptl == t.ptl && u.pma == t.pma
  }

  /** The rows a harmonic expansion may be given. */
  datatype Row = Pt | Ps | Pd(i: nat) | Ptl(i: nat) | Pma(i: nat)

  /** `globe7`'s rows: `pt`, `ps` and `pd[0..8]`. */
  predicate IsGlobeRow(r: Row)
  {
    match r
    case Pt => true
    case Ps => true
    case Pd(i) => i < 9
    case _ => false
  }

  /** `glob7s`'s rows: `ptl[0..3]` and `pma[0..9]`. */
  predicate IsLowerRow(r: Row)
  {
    match r
    case Ptl(i) => i < 4
    case Pma(i) => i < 10
    case _ => false
  }

  function RowOf(t: Tables, r: Row): (p: seq<real>)
    requires TablesShape(t) && (IsGlobeRow(r) || IsLowerRow(r))
    ensures IsGlobeRow(r) ==> GlobeRow(p)
    ensures IsLowerRow(r) ==> LowerRow(p)
  {
    match r
    case Pt => t.pt
    case Ps => t.ps
    case Pd(i) => t.pd[i]
    case Ptl(i) => t.ptl[i]
    case Pma(i) => t.pma[i]
  }

  /** The tables with row `r` replaced by `q` of the same length. */
  function WithRow(t: Tables, r: Row, q: seq<real>): (u: Tables)
    requires TablesShape(t) && (IsGlobeRow(r) || IsLowerRow(r)) && |q| == |RowOf(t, r)|
    ensures TablesShape(u) && RowOf(u, r) == q && ReadOnlyKept(u, t)
    ensures IsGlobeRow(r) ==> LowerRowsKept(u, t)
    ensures IsLowerRow(r) ==> GlobeRowsKept(u, t)
  {
    match r
    case Pt => t.(pt := q)
    case Ps => t.(ps := q)
    case Pd(i) => t.(pd := t.pd[i := q])
    case Ptl(i) => t.(ptl := t.ptl[i := q])
    case Pma(i) => t.(pma := t.pma[i := q])
  }

  /** Replacing a row leaves every other row as it was. */
  lemma OtherRowsKept(t: Tables, r: Row, q: seq<real>, s: Row)
    requires TablesShape(t) && (IsGlobeRow(r) || IsLowerRow(r)) && |q| == |RowOf(t, r)|
    requires (IsGlobeRow(s) || IsLowerRow(s)) && s != r
    ensures RowOf(WithRow(t, r, q), s) == RowOf(t, s)
  {
  }

  // ------------------------------------------------------------ globe7

  /** What a harmonic call hands back: the value, and the tables and cache
      it leaves. */
  datatype Evaluation = Evaluation(value: real, tables: Tables, cache: HarmonicCache)

  /** The total of `globe7`: `p[30]` plus the switch-weighted terms. */
  function Globe7Total(m: Math, p: seq<real>, k: HarmonicCache, c: Conditions, sw: seq<real>, swc: seq<real>): real
    requires GlobeRow(p) && CacheShape(k) && |sw| == 24 && |swc| == 24
  {
    p[30] + SwitchedSum(sw, Globe7Terms(m, p, k, c, sw, swc), 14)
  }

  /** `globe7` on row `r`: the row is floored, the cache refreshed, and the
      total evaluated on both. */
  function Globe7Call(m: Math, t: Tables, k: HarmonicCache, r: Row, c: Conditions, sw: seq<real>, swc: seq<real>): (e: Evaluation)
    requires TablesShape(t) && CacheShape(k) && IsGlobeRow(r) && |sw| == 24 && |swc| == 24 && |c.apA| == 7
    ensures TablesShape(e.tables) && CacheShape(e.cache) && ReadOnlyKept(e.tables, t) && LowerRowsKept(e.tables, t)
    ensures e.tables == WithRow(t, r, Globe7Row(RowOf(t, r), sw))
    ensures e.cache == Globe7Cache(m, RowOf(t, r), k, c, sw)
  {
    var p := RowOf(t, r);
    var q := Globe7Row(p, sw);
    var k' := Globe7Cache(m, p, k, c, sw);
    Evaluation(Globe7Total(m, q, k', c, sw, swc), WithRow(t, r, q), k')
  }

  /** With the switches of all fourteen terms off, `globe7` is `p[30]`. */
  lemma Globe7AllOff(m: Math, t: Tables, k: HarmonicCache, r: Row, c: Conditions, sw: seq<real>, swc: seq<real>)
    requires TablesShape(t) && CacheShape(k) && IsGlobeRow(r) && |sw| == 24 && |swc| == 24 && |c.apA| == 7
    requires forall i :: 1 <= i <= 14 ==> sw[i] == 0.0
    ensures Globe7Call(m, t, k, r, c, sw, swc).value == RowOf(t, r)[30]
  {
    var e := Globe7Call(m, t, k, r, c, sw, swc);
    var q := Globe7Row(RowOf(t, r), sw);
    SwitchedSumAllOff(sw, Globe7Terms(m, q, e.cache, c, sw, swc), 14);
  }

  /** The floor of `p[24]` is applied once: a second call on the same row
      leaves the tables as the first left them. */
  lemma Globe7RowSettles(m: Math, t: Tables, k: HarmonicCache, r: Row, c: Conditions, sw: seq<real>, swc: seq<real>)
    requires TablesShape(t) && CacheShape(k) && IsGlobeRow(r) && |sw| == 24 && |swc| == 24 && |c.apA| == 7
    ensures var e := Globe7Call(m, t, k, r, c, sw, swc);
      Globe7Call(m, e.tables, e.cache, r, c, sw, swc).tables == e.tables
  {
    var p := RowOf(t, r);
    var q := Globe7Row(p, sw);
    assert RowOf(WithRow(t, r, q), r) == q;
    if HistoryOn(p, sw) {
      assert q == FlooredRow(p) && HistoryOn(q, sw);
      assert Globe7Row(q, sw) == q;
    } else {
      assert q == p;
    }
  }

  // ------------------------------------------------------------ glob7s

  /** The row `glob7s` evaluates: the tag stored when it was zero. */
  function TaggedRow(p: seq<real>): (q: seq<real>)
    requires LowerRow(p)
    ensures |q| == |p| && q[99] == (if p[99] == 0.0 then LowerParameterSet else p[99])
    ensures forall i :: 0 <= i < |p| && i != 99 ==> q[i] == p[i]
  {
    if p[99] == 0.0 then p[99 := LowerParameterSet] else p
  }

  /** The outcome of a `glob7s` call: the value, or the refusal of a wrong
      tag, together with the tables it leaves. */
  datatype LowerEvaluation = LowerEvaluation(value: Result<real>, tables: Tables)

  /** `glob7s` on row `r` with the cache left by the last `globe7`: the
      switch-weighted sum of its terms (no constant), or `InvalidValue` when
      the tag is neither 0 nor 2. */
  function Glob7sCall(m: Math, t: Tables, k: HarmonicCache, r: Row, c: Conditions, sw: seq<real>, swc: seq<real>): (e: LowerEvaluation)
    requires TablesShape(t) && CacheShape(k) && IsLowerRow(r) && |sw| == 24 && |swc| == 24
    ensures TablesShape(e.tables) && ReadOnlyKept(e.tables, t) && GlobeRowsKept(e.tables, t)
    ensures e.value.Failure? <==> CheckedTag(RowOf(t, r)[99]).Failure?
    ensures e.value.Failure? ==> e.value.error == InvalidValue
    ensures e.tables == WithRow(t, r, TaggedRow(RowOf(t, r)))
  {
    var q := TaggedRow(RowOf(t, r));
    var u := WithRow(t, r, q);
    if q[99] != LowerParameterSet then LowerEvaluation(Failure(InvalidValue), u)
    else LowerEvaluation(Success(SwitchedSum(sw, Glob7sTerms(m, q, k, c, sw, swc), 14)), u)
  }

  /** With every switch off, an accepted `glob7s` call contributes 0. */
  lemma Glob7sAllOff(m: Math, t: Tables, k: HarmonicCache, r: Row, c: Conditions, sw: seq<real>, swc: seq<real>)
    requires TablesShape(t) && CacheShape(k) && IsLowerRow(r) && |sw| == 24 && |swc| == 24
    requires forall i :: 1 <= i <= 14 ==> sw[i] == 0.0
    requires CheckedTag(RowOf(t, r)[99]).Success?
    ensures Glob7sCall(m, t, k, r, c, sw, swc).value == Success(0.0)
  {
    var q := TaggedRow(RowOf(t, r));
    SwitchedSumAllOff(sw, Glob7sTerms(m, q, k, c, sw, swc), 14);
  }

  /** A call that accepts the tag leaves the tag 2 behind, so the next call
      on that row accepts it too and changes nothing. */
  lemma Glob7sTagSettles(m: Math, t: Tables, k: HarmonicCache, r: Row, c: Conditions, sw: seq<real>, swc: seq<real>)
    requires TablesShape(t) && CacheShape(k) && IsLowerRow(r) && |sw| == 24 && |swc| == 24
    requires Glob7sCall(m, t, k, r, c, sw, swc).value.Success?
    ensures var u := Glob7sCall(m, t, k, r, c, sw, swc).tables;
      && RowOf(u, r)[99] == LowerParameterSet
      && Glob7sCall(m, u, k, r, c, sw, swc) == Glob7sCall(m, t, k, r, c, sw, swc)
  {
    var q := TaggedRow(RowOf(t, r));
    var u := WithRow(t, r, q);
    assert RowOf(u, r) == q;
    assert TaggedRow(q) == q;
    assert WithRow(u, r, q) == u;
  }
}
