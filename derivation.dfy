/** The per-pitch derivation of `load_season_data` in
    PLV_Hitter_Metrics_test.py: location buckets, context baselines and the
    "over average" metrics, percent and run-value scaling, the in-zone flag
    with the zDV/oDV split, the count string and the game date. */
module Derivation {
  import opened Numeric
  import opened Pitches

  /** `r * perFoot` is a whole number: `r` lies on the 1/perFoot-foot grid. */
  predicate OnGrid(r: real, perFoot: nat)
  {
    (r * perFoot as real).Floor as real == r * perFoot as real
  }

  /** Horizontal bucket: `p_x` rounded to the nearest 1/12 foot, clipped to
      [-20/12, 20/12]. Clipping the rounded twelfths to -20..20 is the same
      as clipping their quotient by 12. */
  function XBucket(px: real): (r: real)
    ensures OnGrid(r, 12) && -20.0 <= r * 12.0 <= 20.0
    ensures -20.0 <= px * 12.0 <= 20.0 ==> -0.5 <= (r - px) * 12.0 <= 0.5
    ensures px * 12.0 < -20.0 ==> r == -20.0 / 12.0
    ensures px * 12.0 > 20.0 ==> r == 20.0 / 12.0
  {
    GridIndex(px * 12.0, -20, 20) as real / 12.0
  }

  /** Vertical bucket used for the baselines: `sz_z` rounded to the nearest
      1/24 foot, clipped to [-1.5, 1.25] (that is, -36..30 twenty-fourths). */
  function SzBucket(szZ: real): (r: real)
    ensures OnGrid(r, 24) && -1.5 <= r <= 1.25
    ensures -1.5 <= szZ <= 1.25 ==> -0.5 <= (r - szZ) * 24.0 <= 0.5
    ensures szZ < -1.5 ==> r == -1.5
    ensures szZ > 1.25 ==> r == 1.25
  {
    GridIndex(szZ * 24.0, -36, 30) as real / 24.0
  }

  /** The vertical bucket the column finally holds: `p_z` rounded to the
      nearest 1/12 foot, clipped to [0, 4.5] (0..54 twelfths). */
  function PzBucket(pz: real): (r: real)
    ensures OnGrid(r, 12) && 0.0 <= r <= 4.5
    ensures 0.0 <= pz <= 4.5 ==> -0.5 <= (r - pz) * 12.0 <= 0.5
    ensures pz < 0.0 ==> r == 0.0
    ensures pz > 4.5 ==> r == 4.5
  {
    GridIndex(pz * 12.0, 0, 54) as real / 12.0
  }

  /** The grouping key of the baselines: pitcher hand, batter hand, pitch
      type, both location buckets, balls and strikes. */
  datatype Key = Key(pHand: Hand, bHand: Hand, pitchType: string, kdeX: real, kdeZ: real, balls: nat, strikes: nat)

  /** The key of a pitch, built from the `sz_z`-based vertical bucket. A
      pitch with a missing `p_x` or `sz_z` has a missing bucket and so
      belongs to no group (pandas groupby drops NaN keys). */
  function ContextKey(p: Pitch): (k: Option<Key>)
    ensures k.Some? <==> p.px.Some? && p.szZ.Some?
  {
    if p.px.Some? && p.szZ.Some? then
      Some(Key(p.pHand, p.bHand, p.pitchType, XBucket(p.px.value), SzBucket(p.szZ.value), p.balls, p.strikes))
    else None
  }

  /** Column `c` of the pitches whose key is `k`, in order. */
  function ContextValues(ps: seq<Pitch>, k: Key, c: Col): (vals: seq<Option<real>>)
  {
    if ps == [] then []
    else (if ContextKey(ps[0]) == Some(k) then [Get(ps[0], c)] else []) + ContextValues(ps[1..], k, c)
  }

  /** `groupby(key).transform('mean')`: the mean of column `c` over every
      pitch of the season that shares the pitch's key. */
  function Baseline(ps: seq<Pitch>, p: Pitch, c: Col): (r: Option<real>)
    ensures ContextKey(p).None? ==> r.None?
    ensures p in ps && ContextKey(p).Some? && Get(p, c).Some? ==> r.Some?
  {
    match ContextKey(p)
    case None => None
    case Some(k) =>
      OwnValueInContext(ps, p, k, c);
      MeanPresent(ContextValues(ps, k, c))
  }

  /** A pitch of the season contributes its own value to its group. */
  lemma {:induction false} OwnValueInContext(ps: seq<Pitch>, p: Pitch, k: Key, c: Col)
    requires ContextKey(p) == Some(k)
    ensures p in ps ==> Get(p, c) in ContextValues(ps, k, c)
  {
    if ps != [] && p in ps {
      if ps[0] != p {
        OwnValueInContext(ps[1..], p, k, c);
      }
    }
  }

  /** The pitch's value minus its baseline. */
  function OverAverage(ps: seq<Pitch>, p: Pitch, c: Col): (r: Option<real>)
    ensures r.Some? <==> Get(p, c).Some? && Baseline(ps, p, c).Some?
    ensures r.Some? ==> r.value + Baseline(ps, p, c).value == Get(p, c).value
    ensures p in ps && ContextKey(p).Some? ==> (r.Some? <==> Get(p, c).Some?)
  {
    SubOpt(Get(p, c), Baseline(ps, p, c))
  }

  /** The over-average values of those pitches of `qs` whose key is `k`,
      with baselines taken over the season `all`. */
  function GroupOverAverage(qs: seq<Pitch>, all: seq<Pitch>, k: Key, c: Col): (vals: seq<Option<real>>)
  {
    if qs == [] then []
    else (if ContextKey(qs[0]) == Some(k) then [OverAverage(all, qs[0], c)] else []) + GroupOverAverage(qs[1..], all, k, c)
  }

  /** Within a group every pitch has the same baseline `m`, so the present
      over-average values are the group's present values less `m`. */
  lemma {:induction false} GroupOverAverageShift(qs: seq<Pitch>, all: seq<Pitch>, k: Key, c: Col, m: real)
    requires MeanPresent(ContextValues(all, k, c)) == Some(m)
    ensures Present(GroupOverAverage(qs, all, k, c)) == Shift(Present(ContextValues(qs, k, c)), m)
  {
    if qs != [] {
      var q := qs[0];
      var rest := GroupOverAverage(qs[1..], all, k, c);
      var vrest := ContextValues(qs[1..], k, c);
      GroupOverAverageShift(qs[1..], all, k, c, m);
      if ContextKey(q) == Some(k) {
        assert Baseline(all, q, c) == Some(m);
        assert GroupOverAverage(qs, all, k, c) == [SubOpt(Get(q, c), Some(m))] + rest;
        assert ContextValues(qs, k, c) == [Get(q, c)] + vrest;
        PresentConcat([SubOpt(Get(q, c), Some(m))], rest);
        PresentConcat([Get(q, c)], vrest);
        ShiftConcat(Present([Get(q, c)]), Present(vrest), m);
        SubOptShift(Get(q, c), m);
        calc {
          Present(GroupOverAverage(qs, all, k, c));
          Present([SubOpt(Get(q, c), Some(m))]) + Present(rest);
          Shift(Present([Get(q, c)]), m) + Shift(Present(vrest), m);
          Shift(Present([Get(q, c)]) + Present(vrest), m);
          Shift(Present(ContextValues(qs, k, c)), m);
        }
      } else {
        assert GroupOverAverage(qs, all, k, c) == rest;
        assert ContextValues(qs, k, c) == vrest;
      }
    }
  }

  /** `dv_oa` and `pow_oa` sum to zero within every key group: the baseline
      is the group's own mean. */
  lemma OverAverageSumsToZero(ps: seq<Pitch>, k: Key, c: Col)
    ensures Sum(Present(GroupOverAverage(ps, ps, k, c))) == 0.0
  {
    var vals := ContextValues(ps, k, c);
    var mean := MeanPresent(vals);
    if mean.Some? {
      GroupOverAverageShift(ps, ps, k, c, mean.value);
      ShiftByMeanSumsToZero(vals);
    } else {
      NoBaselineNoValues(ps, ps, k, c);
    }
  }

  /** When a group has no present value, no over-average value is present. */
  lemma {:induction false} NoBaselineNoValues(qs: seq<Pitch>, all: seq<Pitch>, k: Key, c: Col)
    requires MeanPresent(ContextValues(all, k, c)).None?
    ensures Present(GroupOverAverage(qs, all, k, c)) == []
  {
    if qs != [] {
      NoBaselineNoValues(qs[1..], all, k, c);
      var head := if ContextKey(qs[0]) == Some(k) then [OverAverage(all, qs[0], c)] else [];
      PresentConcat(head, GroupOverAverage(qs[1..], all, k, c));
    }
  }

  /** When exactly one pitch of the season has a key, that key's values are
      that pitch's value alone. */
  lemma {:induction false} ContextValuesOfLonePitch(ps: seq<Pitch>, i: nat, c: Col)
    requires i < |ps| && ContextKey(ps[i]).Some?
    requires forall j | 0 <= j < |ps| && j != i :: ContextKey(ps[j]) != ContextKey(ps[i])
    ensures ContextValues(ps, ContextKey(ps[i]).value, c) == [Get(ps[i], c)]
  {
    var k := ContextKey(ps[i]).value;
    if i == 0 {
      ContextValuesOfNone(ps[1..], k, c);
    } else {
      ContextValuesOfLonePitch(ps[1..], i - 1, c);
    }
  }

  lemma {:induction false} ContextValuesOfNone(ps: seq<Pitch>, k: Key, c: Col)
    requires forall j | 0 <= j < |ps| :: ContextKey(ps[j]) != Some(k)
    ensures ContextValues(ps, k, c) == []
  {
    if ps != [] {
      ContextValuesOfNone(ps[1..], k, c);
    }
  }

  /** A pitch alone in its group is its own baseline: its over-average
      value is 0. */
  lemma LonePitchOverAverageIsZero(ps: seq<Pitch>, i: nat, c: Col)
    requires i < |ps| && ContextKey(ps[i]).Some? && Get(ps[i], c).Some?
    requires forall j | 0 <= j < |ps| && j != i :: ContextKey(ps[j]) != ContextKey(ps[i])
    ensures OverAverage(ps, ps[i], c) == Some(0.0)
  {
    ContextValuesOfLonePitch(ps, i, c);
    var v := Get(ps[i], c).value;
    assert Present([Get(ps[i], c)]) == [v];
    assert Sum([v]) == v + Sum([]);
  }

  /** The `zone` column: 1 unless the pitch is more than 10/12 foot from the
      middle horizontally or more than half a foot (relative) vertically; a
      missing coordinate does not move a pitch out of the zone. */
  function ZoneOf(p: Pitch): (z: int)
    ensures z == 0 || z == 1
  {
    var outside := (p.px.Some? && (p.px.value > 10.0 / 12.0 || p.px.value < -10.0 / 12.0))
                || (p.szZ.Some? && (p.szZ.value > 0.5 || p.szZ.value < -0.5));
    if outside then 0 else 1
  }

  /** Zone is 0 exactly when |p_x| > 10/12 or |sz_z| > 0.5. */
  lemma ZoneIff(p: Pitch)
    ensures ZoneOf(p) == 0 <==>
      (p.px.Some? && Abs(p.px.value) > 10.0 / 12.0) || (p.szZ.Some? && Abs(p.szZ.value) > 0.5)
  {
  }

  function Abs(x: real): (a: real)
    ensures a >= 0.0 && (a == x || a == -x)
  {
    if x < 0.0 then -x else x
  }

  /** Dividing by the season's run constant and multiplying by 100. */
  function RunsPer100(v: Option<real>, runConstant: real): (r: Option<real>)
    requires runConstant != 0.0
    ensures r.Some? <==> v.Some?
    ensures r.Some? ==> r.value * runConstant == v.value * 100.0
  {
    if v.Some? then Some(v.value / runConstant * 100.0) else None
  }

  /** The columns multiplied by 100 at PLV_Hitter_Metrics_test.py:113. */
  const HitterPercentColumns: seq<Col> := [SwingAgg, SzJudge, ContactOE, InPlayInput]

  /** The columns multiplied by 100 at PLV_Batter_Metrics.py:67-69. */
  const BatterPercentColumns: seq<Col> := [SwingAgg, ContactOE, SzJudge]

  /** `for stat in cols: df[stat] = df[stat].mul(factor)`: every listed
      column is multiplied by `factor` once, every other column and every
      non-metric field is kept. */
  method ScaleColumns(ps: seq<Pitch>, cols: seq<Col>, factor: real) returns (out: seq<Pitch>)
    requires NoDup(cols)
    ensures |out| == |ps|
    ensures forall i | 0 <= i < |ps| :: SameContext(ps[i], out[i])
    ensures forall i, c | 0 <= i < |ps| ::
      Get(out[i], c) == if c in cols then MulOpt(Get(ps[i], c), factor) else Get(ps[i], c)
  {
    out := ps;
    var k := 0;
    while k < |cols|
      invariant 0 <= k <= |cols|
      invariant |out| == |ps|
      invariant forall i | 0 <= i < |ps| :: SameContext(ps[i], out[i])
      invariant forall i, c | 0 <= i < |ps| ::
        Get(out[i], c) == if c in cols[..k] then MulOpt(Get(ps[i], c), factor) else Get(ps[i], c)
    {
      var col := cols[k];
      assert col !in cols[..k];
      assert forall c :: c in cols[..k + 1] <==> c in cols[..k] || c == col;
      var prev := out;
      out := seq(|prev|, i requires 0 <= i < |prev| => Set(prev[i], col, MulOpt(Get(prev[i], col), factor)));
      forall i, c | 0 <= i < |ps|
        ensures Get(out[i], c) == if c in cols[..k + 1] then MulOpt(Get(ps[i], c), factor) else Get(ps[i], c)
      {
        assert out[i] == Set(prev[i], col, MulOpt(Get(prev[i], col), factor));
        assert Get(prev[i], c) == if c in cols[..k] then MulOpt(Get(ps[i], c), factor) else Get(ps[i], c);
        if c == col {
          assert c !in cols[..k] && c in cols[..k + 1];
          assert Get(out[i], c) == MulOpt(Get(prev[i], c), factor);
        } else {
          assert (c in cols[..k + 1]) == (c in cols[..k]);
          assert Get(out[i], c) == Get(prev[i], c);
        }
      }
      k := k + 1;
    }
    assert cols[..k] == cols;
  }

  /** The batter dashboard's only transformation of the loaded pitches:
      Swing Agg, Contact and SZ Judge become percentages, every other column
      is kept. */
  method ScaleBatterPercents(ps: seq<Pitch>) returns (out: seq<Pitch>)
    ensures |out| == |ps|
    ensures forall i | 0 <= i < |ps| ::
      && SameContext(ps[i], out[i])
      && out[i].swingAgg == MulOpt(ps[i].swingAgg, 100.0)
      && out[i].contactOE == MulOpt(ps[i].contactOE, 100.0)
      && out[i].szJudge == MulOpt(ps[i].szJudge, 100.0)
      && out[i].decisionValue == ps[i].decisionValue && out[i].adjPower == ps[i].adjPower
      && out[i].batterWoba == ps[i].batterWoba && out[i].inPlayInput == ps[i].inPlayInput
  {
    out := ScaleColumns(ps, BatterPercentColumns, 100.0);
    assert SwingAgg in BatterPercentColumns && ContactOE in BatterPercentColumns && SzJudge in BatterPercentColumns;
    assert DecisionValue !in BatterPercentColumns && AdjPower !in BatterPercentColumns;
    assert BatterWoba !in BatterPercentColumns && InPlayInput !in BatterPercentColumns;
    forall i | 0 <= i < |ps|
      ensures out[i].swingAgg == MulOpt(ps[i].swingAgg, 100.0)
      ensures out[i].contactOE == MulOpt(ps[i].contactOE, 100.0)
      ensures out[i].szJudge == MulOpt(ps[i].szJudge, 100.0)
      ensures out[i].decisionValue == ps[i].decisionValue && out[i].adjPower == ps[i].adjPower
      ensures out[i].batterWoba == ps[i].batterWoba && out[i].inPlayInput == ps[i].inPlayInput
    {
      assert Get(out[i], SwingAgg) == MulOpt(Get(ps[i], SwingAgg), 100.0);
      assert Get(out[i], ContactOE) == MulOpt(Get(ps[i], ContactOE), 100.0);
      assert Get(out[i], SzJudge) == MulOpt(Get(ps[i], SzJudge), 100.0);
      assert Get(out[i], DecisionValue) == Get(ps[i], DecisionValue);
      assert Get(out[i], AdjPower) == Get(ps[i], AdjPower);
      assert Get(out[i], BatterWoba) == Get(ps[i], BatterWoba);
      assert Get(out[i], InPlayInput) == Get(ps[i], InPlayInput);
    }
  }

  /** Everything `load_season_data` attaches to pitch `i` of the season
      `raw`, and how it rescales that pitch's metrics. */
  predicate Loaded(raw: seq<Pitch>, runConstant: real, dates: map<int, int>, i: int, r: Row)
    requires 0 <= i < |raw| && runConstant != 0.0
  {
    var p := raw[i];
    && SameContext(p, r.p)
    // percent scaling (113-114) and run-value scaling (117-118)
    && r.p.swingAgg == MulOpt(p.swingAgg, 100.0)
    && r.p.szJudge == MulOpt(p.szJudge, 100.0)
    && r.p.contactOE == MulOpt(p.contactOE, 100.0)
    && r.p.inPlayInput == MulOpt(p.inPlayInput, 100.0)
    && r.p.adjPower == p.adjPower
    && r.p.decisionValue == RunsPer100(p.decisionValue, runConstant)
    && r.p.batterWoba == RunsPer100(p.batterWoba, runConstant)
    // buckets: the final vertical bucket comes from p_z, not sz_z
    && r.d.kdeX == (if p.px.Some? then Some(XBucket(p.px.value)) else None)
    && r.d.kdeZ == (if p.szZ.Some? && p.pz.Some? then Some(PzBucket(p.pz.value)) else None)
    // baselines use the sz_z-based key and the unscaled metrics
    && r.d.baseDecisionValue == Baseline(raw, p, DecisionValue)
    && r.d.basePower == Baseline(raw, p, AdjPower)
    && r.d.saOa == p.swingAgg
    && r.d.dvOa == OverAverage(raw, p, DecisionValue)
    && r.d.caOa == p.contactOE
    && r.d.powOa == OverAverage(raw, p, AdjPower)
    && r.d.zone == ZoneOf(p)
    && r.d.dvZone == (if r.d.zone == 1 then r.p.decisionValue else None)
    && r.d.dvOutside == (if r.d.zone == 0 then r.p.decisionValue else None)
    && r.d.count == CountString(p.balls, p.strikes)
    && r.d.gameDate == (if p.pitchId in dates then Some(dates[p.pitchId]) else None)
  }

  /** The key of a loaded row, read from its current bucket columns. */
  function RowKey(r: Row): (k: Option<Key>)
  {
    if r.d.kdeX.Some? && r.d.kdeZ.Some? then
      Some(Key(r.p.pHand, r.p.bHand, r.p.pitchType, r.d.kdeX.value, r.d.kdeZ.value, r.p.balls, r.p.strikes))
    else None
  }

  function GroupColumn(rows: seq<Row>, k: Key, c: Col): (vals: seq<Option<real>>)
  {
    if rows == [] then []
    else (if RowKey(rows[0]) == Some(k) then [Get(rows[0].p, c)] else []) + GroupColumn(rows[1..], k, c)
  }

  /** `transform('mean')` over the rows' current key columns. */
  function GroupMean(rows: seq<Row>, r: Row, c: Col): (m: Option<real>)
  {
    match RowKey(r)
    case None => None
    case Some(k) => MeanPresent(GroupColumn(rows, k, c))
  }

  /** While the rows carry the pitches unchanged and the `sz_z`-based
      buckets, grouping the rows is grouping the pitches. */
  lemma {:induction false} GroupColumnIsContextValues(rows: seq<Row>, ps: seq<Pitch>, k: Key, c: Col)
    requires |rows| == |ps|
    requires forall j | 0 <= j < |ps| :: rows[j].p == ps[j] && RowKey(rows[j]) == ContextKey(ps[j])
    ensures GroupColumn(rows, k, c) == ContextValues(ps, k, c)
  {
    if ps != [] {
      GroupColumnIsContextValues(rows[1..], ps[1..], k, c);
    }
  }

  /** Lines 81-86: the location buckets, where the coordinate is present;
      every other derived column is still empty. */
  method AttachBuckets(raw: seq<Pitch>) returns (df: seq<Row>)
    ensures |df| == |raw|
    ensures forall i | 0 <= i < |raw| ::
      df[i] == Row(raw[i], Underived.(kdeX := XBucketOf(raw[i]), kdeZ := SzBucketOf(raw[i])))
    ensures forall i | 0 <= i < |raw| :: RowKey(df[i]) == ContextKey(raw[i])
  {
    df := seq(|raw|, i requires 0 <= i < |raw| => Row(raw[i], Underived));
    df := seq(|df|, i requires 0 <= i < |df| => df[i].(d := df[i].d.(kdeX := XBucketOf(df[i].p))));
    df := seq(|df|, i requires 0 <= i < |df| => df[i].(d := df[i].d.(kdeZ := SzBucketOf(df[i].p))));
  }

  function XBucketOf(p: Pitch): (b: Option<real>)
  {
    if p.px.Some? then Some(XBucket(p.px.value)) else None
  }

  function SzBucketOf(p: Pitch): (b: Option<real>)
  {
    if p.szZ.Some? then Some(SzBucket(p.szZ.value)) else None
  }

  /** Lines 88-106: the two baselines by group mean over the rows' key
      columns, and the over-average columns. While the rows hold the season's
      pitches with their `sz_z` buckets, each baseline is the pitch's
      context mean over the season. */
  method AttachBaselines(raw: seq<Pitch>, df: seq<Row>) returns (out: seq<Row>)
    requires |df| == |raw|
    requires forall j | 0 <= j < |raw| :: df[j].p == raw[j] && RowKey(df[j]) == ContextKey(raw[j])
    ensures |out| == |df|
    ensures forall i | 0 <= i < |df| ::
      out[i] == df[i].(d := df[i].d.(
        baseDecisionValue := Baseline(raw, raw[i], DecisionValue),
        basePower := Baseline(raw, raw[i], AdjPower),
        saOa := raw[i].swingAgg,
        dvOa := OverAverage(raw, raw[i], DecisionValue),
        caOa := raw[i].contactOE,
        powOa := OverAverage(raw, raw[i], AdjPower)))
  {
    forall k: Key, c: Col ensures GroupColumn(df, k, c) == ContextValues(raw, k, c) {
      GroupColumnIsContextValues(df, raw, k, c);
    }
    var keyed := df;
    out := seq(|keyed|, i requires 0 <= i < |keyed| =>
      keyed[i].(d := keyed[i].d.(baseDecisionValue := GroupMean(keyed, keyed[i], DecisionValue),
                                 basePower := GroupMean(keyed, keyed[i], AdjPower))));
    out := seq(|out|, i requires 0 <= i < |out| =>
      out[i].(d := out[i].d.(saOa := out[i].p.swingAgg,
                             dvOa := SubOpt(out[i].p.decisionValue, out[i].d.baseDecisionValue),
                             caOa := out[i].p.contactOE,
                             powOa := SubOpt(out[i].p.adjPower, out[i].d.basePower))));
  }

  /** Lines 109-111: where `sz_z` is present the vertical bucket is
      recomputed from `p_z`; a missing `p_z` there makes `astype('int')`
      raise. Nothing else changes, the baselines included. */
  method ReassignVerticalBucket(df: seq<Row>) returns (res: Result<seq<Row>, Error>)
    ensures res.Failure? <==> exists i | 0 <= i < |df| :: df[i].p.szZ.Some? && df[i].p.pz.None?
    ensures res.Success? ==> |res.value| == |df|
    ensures res.Success? ==> forall i | 0 <= i < |df| ::
      res.value[i] == if df[i].p.szZ.Some? then df[i].(d := df[i].d.(kdeZ := Some(PzBucket(df[i].p.pz.value)))) else df[i]
  {
    if exists i | 0 <= i < |df| :: df[i].p.szZ.Some? && df[i].p.pz.None? {
      return Failure(CannotCastNaNToInt);
    }
    var out := seq(|df|, i requires 0 <= i < |df| =>
      df[i].(d := df[i].d.(kdeZ := if df[i].p.szZ.Some? then Some(PzBucket(df[i].p.pz.value)) else df[i].d.kdeZ)));
    return Success(out);
  }

  /** Lines 113-118: the percent columns times 100, decision value and
      wOBA in runs per 100 pitches; derived columns untouched. */
  method RescaleMetrics(df: seq<Row>, runConstant: real) returns (out: seq<Row>)
    requires runConstant != 0.0
    ensures |out| == |df|
    ensures forall i | 0 <= i < |df| ::
      out[i].d == df[i].d && SameContext(df[i].p, out[i].p)
      && out[i].p.swingAgg == MulOpt(df[i].p.swingAgg, 100.0)
      && out[i].p.szJudge == MulOpt(df[i].p.szJudge, 100.0)
      && out[i].p.contactOE == MulOpt(df[i].p.contactOE, 100.0)
      && out[i].p.inPlayInput == MulOpt(df[i].p.inPlayInput, 100.0)
      && out[i].p.adjPower == df[i].p.adjPower
      && out[i].p.decisionValue == RunsPer100(df[i].p.decisionValue, runConstant)
      && out[i].p.batterWoba == RunsPer100(df[i].p.batterWoba, runConstant)
  {
    var ps := seq(|df|, i requires 0 <= i < |df| => df[i].p);
    var scaled := ScaleColumns(ps, HitterPercentColumns, 100.0);
    out := seq(|df|, i requires 0 <= i < |df| => df[i].(p := scaled[i]));
    assert SwingAgg in HitterPercentColumns && SzJudge in HitterPercentColumns;
    assert ContactOE in HitterPercentColumns && InPlayInput in HitterPercentColumns;
    assert AdjPower !in HitterPercentColumns && DecisionValue !in HitterPercentColumns;
    assert BatterWoba !in HitterPercentColumns;
    forall i | 0 <= i < |df| ensures out[i].p.swingAgg == MulOpt(df[i].p.swingAgg, 100.0)
      && out[i].p.szJudge == MulOpt(df[i].p.szJudge, 100.0)
      && out[i].p.contactOE == MulOpt(df[i].p.contactOE, 100.0)
      && out[i].p.inPlayInput == MulOpt(df[i].p.inPlayInput, 100.0)
      && out[i].p.adjPower == df[i].p.adjPower
      && out[i].p.decisionValue == df[i].p.decisionValue
      && out[i].p.batterWoba == df[i].p.batterWoba
    {
      assert out[i].p == scaled[i] && ps[i] == df[i].p;
      assert Get(out[i].p, SwingAgg) == MulOpt(Get(df[i].p, SwingAgg), 100.0);
      assert Get(out[i].p, SzJudge) == MulOpt(Get(df[i].p, SzJudge), 100.0);
      assert Get(out[i].p, ContactOE) == MulOpt(Get(df[i].p, ContactOE), 100.0);
      assert Get(out[i].p, InPlayInput) == MulOpt(Get(df[i].p, InPlayInput), 100.0);
      assert Get(out[i].p, AdjPower) == Get(df[i].p, AdjPower);
      assert Get(out[i].p, DecisionValue) == Get(df[i].p, DecisionValue);
      assert Get(out[i].p, BatterWoba) == Get(df[i].p, BatterWoba);
    }
    out := seq(|out|, i requires 0 <= i < |out| =>
      out[i].(p := out[i].p.(decisionValue := RunsPer100(out[i].p.decisionValue, runConstant),
                             batterWoba := RunsPer100(out[i].p.batterWoba, runConstant))));
  }

  /** Lines 120-129: the zone flag, the zDV/oDV split of the (already
      rescaled) decision value, the count string and the game date looked up
      by pitch id (missing when the id is not in the map). */
  method AttachLabels(df: seq<Row>, dates: map<int, int>) returns (out: seq<Row>)
    ensures |out| == |df|
    ensures forall i | 0 <= i < |df| ::
      out[i] == df[i].(d := df[i].d.(
        zone := ZoneOf(df[i].p),
        dvZone := if ZoneOf(df[i].p) == 1 then df[i].p.decisionValue else None,
        dvOutside := if ZoneOf(df[i].p) == 0 then df[i].p.decisionValue else None,
        count := CountString(df[i].p.balls, df[i].p.strikes),
        gameDate := if df[i].p.pitchId in dates then Some(dates[df[i].p.pitchId]) else None))
  {
    out := seq(|df|, i requires 0 <= i < |df| => df[i].(d := df[i].d.(zone := ZoneOf(df[i].p))));
    out := seq(|out|, i requires 0 <= i < |out| =>
      out[i].(d := out[i].d.(dvZone := if out[i].d.zone == 1 then out[i].p.decisionValue else None,
                             dvOutside := if out[i].d.zone == 0 then out[i].p.decisionValue else None)));
    out := seq(|out|, i requires 0 <= i < |out| =>
      out[i].(d := out[i].d.(count := CountString(out[i].p.balls, out[i].p.strikes),
                             gameDate := if out[i].p.pitchId in dates then Some(dates[out[i].p.pitchId]) else None)));
  }

  /** `load_season_data` after the file reads: attaches the derived columns
      in the source's order and rescales the metrics in place. It raises
      (as `astype('int')` does on NaN) when a pitch has `sz_z` but no `p_z`;
      otherwise every row is as `Loaded` says. */
  method LoadSeasonData(raw: seq<Pitch>, runConstant: real, dates: map<int, int>) returns (res: Result<seq<Row>, Error>)
    requires runConstant != 0.0
    ensures res.Failure? <==> exists i | 0 <= i < |raw| :: raw[i].szZ.Some? && raw[i].pz.None?
    ensures res.Success? ==> |res.value| == |raw|
    ensures res.Success? ==> forall i | 0 <= i < |raw| :: Loaded(raw, runConstant, dates, i, res.value[i])
  {
    var df := AttachBuckets(raw);
    df := AttachBaselines(raw, df);
    var reassigned := ReassignVerticalBucket(df);
    if reassigned.Failure? {
      return Failure(reassigned.error);
    }
    df := reassigned.value;
    df := RescaleMetrics(df, runConstant);
    df := AttachLabels(df, dates);
    res := Success(df);
  }

  /** `decision_value_z` and `decision_value_o`: a pitch's (rescaled)
      decision value lands in exactly one of them, the other is missing. */
  lemma ZoneSplit(raw: seq<Pitch>, runConstant: real, dates: map<int, int>, i: int, r: Row)
    requires 0 <= i < |raw| && runConstant != 0.0
    requires Loaded(raw, runConstant, dates, i, r)
    requires raw[i].decisionValue.Some?
    ensures r.d.dvZone.Some? != r.d.dvOutside.Some?
    ensures r.d.dvZone.Some? ==> r.d.dvZone == r.p.decisionValue && r.d.zone == 1
    ensures r.d.dvOutside.Some? ==> r.d.dvOutside == r.p.decisionValue && r.d.zone == 0
  {
  }
}
