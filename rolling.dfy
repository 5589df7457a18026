/** The rolling-window charts of both dashboards: the player's pitch series
    (filtered, sorted by pitch id, rows with a missing value dropped),
    pandas' trailing rolling mean with a minimum number of periods, the
    hitter dashboard's fallback window and its thinning to one point per
    game date, the batter dashboard's 1-based x index, and the
    "not enough data" guards. */
module Rolling {
  import opened Numeric
  import opened Pitches
  import opened Selectors

  // ---- Filtering and ordering -----------------------------------------------

  /** A boolean mask: the entries `keep` accepts, in order. */
  function Filter<T(!new)>(xs: seq<T>, keep: T -> bool): (r: seq<T>)
    ensures |r| <= |xs|
    ensures forall i | 0 <= i < |r| :: keep(r[i]) && r[i] in xs
    ensures forall x :: multiset(r)[x] == if keep(x) then multiset(xs)[x] else 0
  {
    if xs == [] then []
    else
      assert xs == [xs[0]] + xs[1..];
      var rest := Filter(xs[1..], keep);
      if keep(xs[0]) then [xs[0]] + rest else rest
  }

  /** A mask keeps the rows in their order: filtering a concatenation is the
      concatenation of the filtered parts. With the multiset clause of
      `Filter` on one-element sequences, this fixes `Filter` completely. */
  lemma {:induction false} FilterConcat<T(!new)>(a: seq<T>, b: seq<T>, keep: T -> bool)
    ensures Filter(a + b, keep) == Filter(a, keep) + Filter(b, keep)
  {
    if a == [] {
      assert a + b == b;
    } else {
      assert (a + b)[0] == a[0];
      assert (a + b)[1..] == a[1..] + b;
      FilterConcat(a[1..], b, keep);
    }
  }

  /** Non-decreasing pitch ids, pair by adjacent pair. */
  predicate PitchOrdered(t: seq<Row>)
  {
    forall i | 0 <= i < |t| - 1 :: t[i].p.pitchId <= t[i + 1].p.pitchId
  }

  lemma {:induction false} PitchOrderedPairwise(t: seq<Row>, i: int, j: int)
    requires PitchOrdered(t)
    requires 0 <= i < j < |t|
    ensures t[i].p.pitchId <= t[j].p.pitchId
    decreases j - i
  {
    if i + 1 < j {
      PitchOrderedPairwise(t, i + 1, j);
    }
  }

  /** Puts `r` in front of the first row with a larger pitch id. */
  function InsertByPitch(r: Row, t: seq<Row>): (out: seq<Row>)
    ensures multiset(out) == multiset([r] + t)
    ensures |out| == |t| + 1 && (out[0] == r || (|t| > 0 && out[0] == t[0]))
  {
    if t == [] then [r]
    else if r.p.pitchId <= t[0].p.pitchId then [r] + t
    else
      assert t == [t[0]] + t[1..];
      [t[0]] + InsertByPitch(r, t[1..])
  }

  lemma {:induction false} InsertByPitchOrdered(r: Row, t: seq<Row>)
    requires PitchOrdered(t)
    ensures PitchOrdered(InsertByPitch(r, t))
  {
    if t != [] && r.p.pitchId > t[0].p.pitchId {
      var rest := InsertByPitch(r, t[1..]);
      InsertByPitchOrdered(r, t[1..]);
      var out := [t[0]] + rest;
      assert out == InsertByPitch(r, t);
      assert t[0].p.pitchId <= rest[0].p.pitchId;
      forall i | 0 <= i < |out| - 1 ensures out[i].p.pitchId <= out[i + 1].p.pitchId {
        if i > 0 {
          assert out[i] == rest[i - 1] && out[i + 1] == rest[i];
        }
      }
    }
  }

  /** `sort_values('pitch_id')`: a permutation in pitch-id order (pandas'
      default sort is not stable, so the order of equal ids is unspecified). */
  function SortByPitch(t: seq<Row>): (out: seq<Row>)
    ensures multiset(out) == multiset(t)
    ensures PitchOrdered(out)
  {
    if t == [] then []
    else
      var rest := SortByPitch(t[1..]);
      InsertByPitchOrdered(t[0], rest);
      assert t == [t[0]] + t[1..];
      InsertByPitch(t[0], rest)
  }

  /** The rows that pass `keep`, sorted by pitch id. */
  function SortedFilter(rows: seq<Row>, keep: Row -> bool): (kept: seq<Row>)
    ensures PitchOrdered(kept)
    ensures forall r :: multiset(kept)[r] == if keep(r) then multiset(rows)[r] else 0
    ensures forall i | 0 <= i < |kept| :: keep(kept[i])
  {
    var f := Filter(rows, keep);
    var kept := SortByPitch(f);
    assert forall i | 0 <= i < |kept| :: kept[i] in multiset(f);
    kept
  }

  // ---- The rolling mean -------------------------------------------------------

  /** First index of the trailing window of `w` values that ends at `i`. */
  function WindowStart(i: nat, w: nat): (lo: nat)
    requires w >= 1
    ensures lo <= i
  {
    if i + 1 >= w then i + 1 - w else 0
  }

  /** The values of the trailing window of `w` that ends at index `i`: the
      last `w` of them, or all of them while fewer have been seen. */
  function Window(xs: seq<real>, w: nat, i: nat): (win: seq<real>)
    requires w >= 1 && i < |xs|
    ensures |win| == if i + 1 < w then i + 1 else w
    ensures win[|win| - 1] == xs[i]
  {
    xs[WindowStart(i, w)..i + 1]
  }

  /** pandas `rolling(w, min_periods = m).mean()` on a series without missing
      values: entry `i` is NaN while fewer than `m` values have been seen,
      and otherwise the mean of the trailing window ending at `i`. */
  function RollingMean(xs: seq<real>, w: nat, m: nat): (r: seq<Option<real>>)
    requires 1 <= w && m <= w
    ensures |r| == |xs|
    ensures forall i | 0 <= i < |xs| :: r[i].None? <==> i + 1 < m
    ensures forall i | 0 <= i < |xs| :: r[i].Some? ==> r[i].value == Mean(Window(xs, w, i))
  {
    seq(|xs|, i requires 0 <= i < |xs| => if i + 1 < m then None else Some(Mean(Window(xs, w, i))))
  }

  lemma SumSnoc(a: seq<real>, x: real)
    ensures Sum(a + [x]) == Sum(a) + x
  {
    SumConcat(a, [x]);
  }

  /** Moving from index `i - 1` to `i` adds `xs[i]` to the window and, once
      the window is full, drops `xs[i - w]`. */
  lemma SlideWindow(xs: seq<real>, w: nat, i: nat)
    requires w >= 1 && i < |xs|
    ensures Sum(Window(xs, w, i)) ==
      (if i == 0 then 0.0 else Sum(Window(xs, w, i - 1))) + xs[i] - (if i >= w then xs[i - w] else 0.0)
  {
    if i == 0 {
      assert Window(xs, w, 0) == [xs[0]];
    } else if i < w {
      assert Window(xs, w, i) == Window(xs, w, i - 1) + [xs[i]];
      SumSnoc(Window(xs, w, i - 1), xs[i]);
    } else {
      var whole := xs[i - w..i + 1];
      assert whole == Window(xs, w, i - 1) + [xs[i]];
      SumSnoc(Window(xs, w, i - 1), xs[i]);
      assert whole == [xs[i - w]] + Window(xs, w, i);
      assert whole[1..] == Window(xs, w, i);
    }
  }

  /** An entry computed from the running sum of its window is the rolling
      mean's entry. */
  lemma SlidingEntry(xs: seq<real>, w: nat, m: nat, i: nat, total: real, entry: Option<real>)
    requires 1 <= w && m <= w && i < |xs|
    requires total == Sum(Window(xs, w, i))
    requires entry == if i + 1 < m then None else Some(total / ((if i + 1 < w then i + 1 else w) as real))
    ensures entry == RollingMean(xs, w, m)[i]
  {
  }

  /** The rolling mean as pandas computes it: one pass keeping the running
      sum of the current window. */
  method SlidingMean(xs: seq<real>, w: nat, m: nat) returns (r: seq<Option<real>>)
    requires 1 <= w && m <= w
    ensures r == RollingMean(xs, w, m)
  {
    r := [];
    var total := 0.0;
    var i := 0;
    while i < |xs|
      invariant 0 <= i <= |xs|
      invariant r == RollingMean(xs, w, m)[..i]
      invariant total == if i == 0 then 0.0 else Sum(Window(xs, w, i - 1))
    {
      SlidingStep(xs, w, m, i, r, total);
      total := total + xs[i];
      if i >= w {
        total := total - xs[i - w];
      }
      var count := if i + 1 < w then i + 1 else w;
      var entry := if i + 1 < m then None else Some(total / (count as real));
      r := r + [entry];
      i := i + 1;
    }
    SlidingDone(xs, w, m, r);
  }

  /** One step of `SlidingMean`: the updated running sum is the sum of the
      next window, and the entry computed from it extends the prefix. */
  lemma SlidingStep(xs: seq<real>, w: nat, m: nat, i: nat, r: seq<Option<real>>, total: real)
    requires 1 <= w && m <= w && i < |xs|
    requires r == RollingMean(xs, w, m)[..i]
    requires total == if i == 0 then 0.0 else Sum(Window(xs, w, i - 1))
    ensures var next := total + xs[i] - (if i >= w then xs[i - w] else 0.0);
      && next == Sum(Window(xs, w, i))
      && r + [if i + 1 < m then None else Some(next / ((if i + 1 < w then i + 1 else w) as real))]
         == RollingMean(xs, w, m)[..i + 1]
  {
    var spec := RollingMean(xs, w, m);
    SlideWindow(xs, w, i);
    var next := total + xs[i] - (if i >= w then xs[i - w] else 0.0);
    var entry := if i + 1 < m then None else Some(next / ((if i + 1 < w then i + 1 else w) as real));
    SlidingEntry(xs, w, m, i, next, entry);
    assert spec[..i + 1] == spec[..i] + [spec[i]];
  }

  lemma SlidingDone(xs: seq<real>, w: nat, m: nat, r: seq<Option<real>>)
    requires 1 <= w && m <= w
    requires r == RollingMean(xs, w, m)[..|xs|]
    ensures r == RollingMean(xs, w, m)
  {
  }

  /** Once the window is full, the minimum number of periods no longer
      matters. */
  lemma FullWindowsAgree(xs: seq<real>, w: nat, m1: nat, m2: nat, i: int)
    requires 1 <= w && m1 <= w && m2 <= w
    requires w - 1 <= i < |xs|
    ensures RollingMean(xs, w, m1)[i] == RollingMean(xs, w, m2)[i]
  {
  }

  /** Sums of values within `lo..hi`. */
  lemma {:induction false} SumBounds(xs: seq<real>, lo: real, hi: real)
    requires forall k | 0 <= k < |xs| :: lo <= xs[k] <= hi
    ensures (|xs| as real) * lo <= Sum(xs) <= (|xs| as real) * hi
  {
    if xs != [] {
      SumBounds(xs[1..], lo, hi);
      var n := (|xs| - 1) as real;
      assert (n + 1.0) * lo == n * lo + lo;
      assert (n + 1.0) * hi == n * hi + hi;
    }
  }

  /** A quotient of a sum bounded by `n * lo` and `n * hi` by `n`. */
  lemma QuotientBounds(total: real, n: real, lo: real, hi: real)
    requires n > 0.0 && n * lo <= total <= n * hi
    ensures lo <= total / n <= hi
  {
    var q := total / n;
    assert q * n == total;
    assert (q - lo) * n == total - n * lo;
    assert (hi - q) * n == n * hi - total;
  }

  /** A rolling mean lies between the smallest and the largest value of the
      series. */
  lemma RollingMeanBounds(xs: seq<real>, w: nat, m: nat, lo: real, hi: real, i: int)
    requires 1 <= w && m <= w && 0 <= i < |xs|
    requires forall k | 0 <= k < |xs| :: lo <= xs[k] <= hi
    ensures RollingMean(xs, w, m)[i].Some? ==> lo <= RollingMean(xs, w, m)[i].value <= hi
  {
    var win := Window(xs, w, i);
    assert forall k | 0 <= k < |win| :: win[k] == xs[WindowStart(i, w) + k];
    MeanBounds(win, lo, hi);
  }

  /** The mean of values in [lo, hi] lies in [lo, hi]. */
  lemma MeanBounds(win: seq<real>, lo: real, hi: real)
    requires |win| > 0
    requires forall k | 0 <= k < |win| :: lo <= win[k] <= hi
    ensures lo <= Mean(win) <= hi
  {
    SumBounds(win, lo, hi);
    QuotientBounds(Sum(win), |win| as real, lo, hi);
  }

  // ---- The fallback window ----------------------------------------------------

  /** pandas `max()` of a series: the largest present entry, NaN if none. */
  function MaxPresent(s: seq<Option<real>>): (r: Option<real>)
    ensures r.None? <==> forall i | 0 <= i < |s| :: s[i].None?
    ensures r.Some? ==> exists i | 0 <= i < |s| :: s[i] == r
    ensures r.Some? ==> forall i | 0 <= i < |s| :: s[i].Some? ==> s[i].value <= r.value
  {
    if s == [] then None
    else
      var rest := MaxPresent(s[1..]);
      assert forall i | 1 <= i < |s| :: s[i] == s[1..][i - 1];
      if s[0].None? then rest
      else if rest.None? || rest.value <= s[0].value then s[0]
      else rest
  }

  /** pandas `min()` of a series: the smallest present entry, NaN if none. */
  function MinPresent(s: seq<Option<real>>): (r: Option<real>)
    ensures r.None? <==> forall i | 0 <= i < |s| :: s[i].None?
    ensures r.Some? ==> exists i | 0 <= i < |s| :: s[i] == r
    ensures r.Some? ==> forall i | 0 <= i < |s| :: s[i].Some? ==> r.value <= s[i].value
  {
    if s == [] then None
    else
      var rest := MinPresent(s[1..]);
      assert forall i | 1 <= i < |s| :: s[i] == s[1..][i - 1];
      if s[0].None? then rest
      else if rest.None? || s[0].value <= rest.value then s[0]
      else rest
  }

  /** The series mean, NaN for an empty series. */
  function SeriesMean(xs: seq<real>): (r: Option<real>)
    ensures r.None? <==> |xs| == 0
    ensures r.Some? ==> r.value == Mean(xs)
  {
    if |xs| == 0 then None else Some(Mean(xs))
  }

  /** `fixed_window`, from the series mean and the first rolling series: the
      window itself when the mean lies strictly between the series' smallest
      and largest rolling mean, otherwise two thirds of it, truncated. A
      comparison with NaN is false, so a missing mean or an all-NaN series
      falls back. */
  function FallbackWindow(mu: Option<real>, first: seq<Option<real>>, w: nat): (fw: nat)
    ensures fw == w || fw == (2 * w) / 3
    ensures (2 * w) / 3 <= fw <= w
    ensures (mu.Some? && MaxPresent(first).Some? && MinPresent(first).Some?
             && MinPresent(first).value < mu.value < MaxPresent(first).value) ==> fw == w
    ensures fw == w && w > 0 ==>
      && mu.Some? && MaxPresent(first).Some? && MinPresent(first).Some?
      && MinPresent(first).value < mu.value < MaxPresent(first).value
  {
    var mx := MaxPresent(first);
    var mn := MinPresent(first);
    if mu.Some? && mx.Some? && mn.Some? && mu.value < mx.value && mu.value > mn.value then w
    else (2 * w) / 3
  }

  /** `fixed_window` for the series `xs` and the chosen window `w`. */
  function FixedWindow(xs: seq<real>, w: nat): (fw: nat)
    requires w >= 1
    ensures fw == w || fw == (2 * w) / 3
    ensures (2 * w) / 3 <= fw <= w
  {
    FallbackWindow(SeriesMean(xs), RollingMean(xs, w, w), w)
  }

  /** The full window is kept exactly when some full window's mean lies
      above the series mean and some lies below it. */
  lemma FixedWindowKeepsWindow(xs: seq<real>, w: nat)
    requires w >= 1
    ensures FixedWindow(xs, w) == w <==>
      |xs| > 0 &&
      (exists i | w - 1 <= i < |xs| :: Mean(xs) < Mean(Window(xs, w, i))) &&
      (exists i | w - 1 <= i < |xs| :: Mean(Window(xs, w, i)) < Mean(xs))
  {
    var first := RollingMean(xs, w, w);
    var mx, mn := MaxPresent(first), MinPresent(first);
    assert (2 * w) / 3 < w;
    if FixedWindow(xs, w) == w {
      var a :| 0 <= a < |first| && first[a] == mx;
      var b :| 0 <= b < |first| && first[b] == mn;
      assert w - 1 <= a && first[a].value == Mean(Window(xs, w, a));
      assert w - 1 <= b && first[b].value == Mean(Window(xs, w, b));
    } else if |xs| > 0 {
      forall i | w - 1 <= i < |xs| ensures mn.Some? && mx.Some? && mn.value <= Mean(Window(xs, w, i)) <= mx.value {
        assert first[i].Some?;
      }
    }
  }

  /** A series shorter than the window has no full window, so it always
      falls back to two thirds of the window. */
  lemma ShortSeriesFallsBack(xs: seq<real>, w: nat)
    requires w >= 1 && |xs| < w
    ensures FixedWindow(xs, w) == (2 * w) / 3
  {
    FixedWindowKeepsWindow(xs, w);
  }

  /** The plotted hitter series `Rolling_Stat`. */
  function RollingStat(xs: seq<real>, w: nat): (r: seq<Option<real>>)
    requires w >= 1
    ensures |r| == |xs|
    ensures forall i | w - 1 <= i < |xs| :: r[i] == RollingMean(xs, w, w)[i]
    ensures forall i | 0 <= i < |xs| :: r[i].None? <==> i + 1 < FixedWindow(xs, w)
    ensures forall i | 0 <= i < |xs| && r[i].Some? :: r[i].value == Mean(Window(xs, w, i))
  {
    var fw := FixedWindow(xs, w);
    forall i | w - 1 <= i < |xs| ensures RollingMean(xs, w, fw)[i] == RollingMean(xs, w, w)[i] {
      FullWindowsAgree(xs, w, fw, w, i);
    }
    RollingMean(xs, w, fw)
  }

  // ---- The hitter dashboard's series -------------------------------------------

  /** The rolling columns the hitter dashboard adds. */
  datatype RollingColumn = RollingStatColumn | RollingMetricColumn(m: RollingMetric)

  /** A row of the hitter dashboard's `rolling_df`: its game date, the
      values of `stat_list`, its 0-based position `pitches_faced`, and the
      rolling columns added so far. */
  datatype FrameRow = FrameRow(date: int, values: map<RollingMetric, real>, pitchesFaced: nat,
                               rolling: map<RollingColumn, Option<real>>)

  /** The row mask of `rolling_df`: the player, an admitted pitcher hand, a
      selected count and a selected pitch-type bucket. The batter's own
      hand is not filtered here. */
  predicate Selected(r: Row, player: string, pitcherHands: seq<Hand>, counts: seq<string>, buckets: seq<string>)
  {
    r.p.hitter == player && r.p.pHand in pitcherHands && r.d.count in counts && r.p.bucket in buckets
  }

  /** `dropna` over the kept columns: a game date and every listed metric. */
  predicate Complete(r: Row, stats: seq<RollingMetric>)
  {
    r.d.gameDate.Some? && forall m | m in stats :: Get(r.p, ColumnOf(m)).Some?
  }

  /** The rows behind `rolling_df`, in pitch order. The mask is computed on
      the unsorted frame and aligned by label, so masking and sorting
      commute. */
  function HitterRows(rows: seq<Row>, player: string, pitcherHands: seq<Hand>, counts: seq<string>,
                      buckets: seq<string>, stats: seq<RollingMetric>): (kept: seq<Row>)
    ensures PitchOrdered(kept)
    ensures forall r :: multiset(kept)[r] ==
                        (if Selected(r, player, pitcherHands, counts, buckets) && Complete(r, stats) then multiset(rows)[r] else 0)
    ensures forall i | 0 <= i < |kept| :: Selected(kept[i], player, pitcherHands, counts, buckets) && Complete(kept[i], stats)
  {
    SortedFilter(rows, (r: Row) => Selected(r, player, pitcherHands, counts, buckets) && Complete(r, stats))
  }

  /** The kept metric values of a complete row. */
  function ValuesOf(r: Row, stats: seq<RollingMetric>): (v: map<RollingMetric, real>)
    requires Complete(r, stats)
    ensures forall m :: m in v <==> m in stats
    ensures forall m | m in v :: Get(r.p, ColumnOf(m)) == Some(v[m])
  {
    map m | m in stats :: Get(r.p, ColumnOf(m)).value
  }

  /** The hitter dashboard's `rolling_df` before any rolling column: one row
      per kept pitch, in pitch order, numbered from 0, with the values of
      `stat_list` and the pitch's game date. */
  function HitterFrame(rows: seq<Row>, player: string, h: Handedness, g: CountGroup, pitchType: string,
                       metric: RollingMetric): (frame: seq<FrameRow>)
    requires ValidGroup(g)
    ensures var kept := HitterRows(rows, player, HandMap(h), SelectedCounts(g), PitchTypeSelect(pitchType), StatList(metric));
      && |frame| == |kept|
      && Indexed(frame)
      && forall i | 0 <= i < |frame| ::
        && Some(frame[i].date) == kept[i].d.gameDate
        && frame[i].rolling == map[]
        && (forall m :: m in frame[i].values <==> m in StatList(metric))
        && (forall m | m in frame[i].values :: Get(kept[i].p, ColumnOf(m)) == Some(frame[i].values[m]))
  {
    var kept := HitterRows(rows, player, HandMap(h), SelectedCounts(g), PitchTypeSelect(pitchType), StatList(metric));
    seq(|kept|, i requires 0 <= i < |kept| =>
      FrameRow(kept[i].d.gameDate.value, ValuesOf(kept[i], StatList(metric)), i, map[]))
  }

  /** Each row sits at its own `pitches_faced`. */
  predicate Indexed(frame: seq<FrameRow>)
  {
    forall i | 0 <= i < |frame| :: frame[i].pitchesFaced == i
  }

  /** Every row carries a value for `m`. */
  predicate HasValue(frame: seq<FrameRow>, m: RollingMetric)
  {
    forall i | 0 <= i < |frame| :: m in frame[i].values
  }

  /** The column of metric `m`. */
  function ColumnValues(frame: seq<FrameRow>, m: RollingMetric): (xs: seq<real>)
    requires HasValue(frame, m)
    ensures |xs| == |frame|
    ensures forall i | 0 <= i < |frame| :: xs[i] == frame[i].values[m]
  {
    seq(|frame|, i requires 0 <= i < |frame| => frame[i].values[m])
  }

  /** Two frames with the same rows apart from their rolling columns. */
  predicate SameRows(frame: seq<FrameRow>, out: seq<FrameRow>)
  {
    && |out| == |frame|
    && forall i | 0 <= i < |frame| ::
      out[i].date == frame[i].date && out[i].values == frame[i].values && out[i].pitchesFaced == frame[i].pitchesFaced
  }

  /** Column `c` of `out` holds `vals`. */
  predicate ColumnIs(out: seq<FrameRow>, c: RollingColumn, vals: seq<Option<real>>)
  {
    && |vals| == |out|
    && forall i | 0 <= i < |out| :: c in out[i].rolling && out[i].rolling[c] == vals[i]
  }

  /** `rolling_df[c] = vals`. */
  function WithRolling(frame: seq<FrameRow>, c: RollingColumn, vals: seq<Option<real>>): (out: seq<FrameRow>)
    requires |vals| == |frame|
    ensures SameRows(frame, out)
    ensures ColumnIs(out, c, vals)
  {
    seq(|frame|, i requires 0 <= i < |frame| => frame[i].(rolling := frame[i].rolling[c := vals[i]]))
  }

  /** Setting one column leaves every other column as it was. */
  lemma WithRollingKeeps(frame: seq<FrameRow>, c: RollingColumn, vals: seq<Option<real>>,
                         other: RollingColumn, kept: seq<Option<real>>)
    requires |vals| == |frame| && other != c
    requires ColumnIs(frame, other, kept)
    ensures ColumnIs(WithRolling(frame, c, vals), other, kept)
  {
    var out := WithRolling(frame, c, vals);
    forall i | 0 <= i < |out| ensures other in out[i].rolling && out[i].rolling[other] == kept[i] {
      assert out[i].rolling == frame[i].rolling[c := vals[i]];
    }
  }

  /** `Rolling_<stat>` for one of the big three: its own default window. */
  function BigThreeRolling(frame: seq<FrameRow>, b: RollingMetric): (r: seq<Option<real>>)
    requires HasValue(frame, b)
    ensures |r| == |frame|
  {
    RollingMean(ColumnValues(frame, b), RollingThreshold(b), RollingThreshold(b))
  }

  /** What the rolling columns of a frame hold after the chart's column
      assignments, for the chosen `metric` and `window`, once the first
      `done` of the big three are set. */
  predicate RollingColumnsHold(frame: seq<FrameRow>, metric: RollingMetric, window: nat, out: seq<FrameRow>, done: nat)
    requires window >= 1 && HasValue(frame, metric) && forall b | b in BigThree :: HasValue(frame, b)
    requires done <= |BigThree|
  {
    && SameRows(frame, out)
    && ColumnIs(out, RollingStatColumn, RollingStat(ColumnValues(frame, metric), window))
    && forall k | 0 <= k < done :: ColumnIs(out, RollingMetricColumn(BigThree[k]), BigThreeRolling(frame, BigThree[k]))
  }

  /** Setting the next big-three column keeps the columns set so far. */
  lemma RollingColumnsStep(frame: seq<FrameRow>, metric: RollingMetric, window: nat, out: seq<FrameRow>, k: nat,
                           col: seq<Option<real>>)
    requires window >= 1 && HasValue(frame, metric) && forall b | b in BigThree :: HasValue(frame, b)
    requires k < |BigThree| && RollingColumnsHold(frame, metric, window, out, k)
    requires col == BigThreeRolling(frame, BigThree[k])
    ensures RollingColumnsHold(frame, metric, window, WithRolling(out, RollingMetricColumn(BigThree[k]), col), k + 1)
  {
    BigThreeStep(frame, out, k, col, RollingStat(ColumnValues(frame, metric), window));
  }

  /** `RollingColumnsStep` with the `Rolling_Stat` column held fixed as `stat`. */
  lemma BigThreeStep(frame: seq<FrameRow>, out: seq<FrameRow>, k: nat, col: seq<Option<real>>, stat: seq<Option<real>>)
    requires forall b | b in BigThree :: HasValue(frame, b)
    requires k < |BigThree| && col == BigThreeRolling(frame, BigThree[k])
    requires SameRows(frame, out) && ColumnIs(out, RollingStatColumn, stat)
    requires forall k' | 0 <= k' < k :: ColumnIs(out, RollingMetricColumn(BigThree[k']), BigThreeRolling(frame, BigThree[k']))
    ensures var next := WithRolling(out, RollingMetricColumn(BigThree[k]), col);
      && SameRows(frame, next) && ColumnIs(next, RollingStatColumn, stat)
      && forall k' | 0 <= k' < k + 1 :: ColumnIs(next, RollingMetricColumn(BigThree[k']), BigThreeRolling(frame, BigThree[k']))
  {
    var c := RollingMetricColumn(BigThree[k]);
    WithRollingKeeps(out, c, col, RollingStatColumn, stat);
    // The big three are three distinct metrics, so at most two were set before.
    if k >= 1 {
      WithRollingKeeps(out, c, col, RollingMetricColumn(BigThree[0]), BigThreeRolling(frame, BigThree[0]));
    }
    if k >= 2 {
      WithRollingKeeps(out, c, col, RollingMetricColumn(BigThree[1]), BigThreeRolling(frame, BigThree[1]));
    }
  }

  /** Adds `Rolling_Stat` (first with the default minimum, then again with
      the fallback window) and `Rolling_<stat>` for each of the big three,
      each over that metric's default window. */
  method AddRollingColumns(frame: seq<FrameRow>, metric: RollingMetric, window: nat) returns (out: seq<FrameRow>)
    requires window >= 1
    requires HasValue(frame, metric) && forall b | b in BigThree :: HasValue(frame, b)
    ensures RollingColumnsHold(frame, metric, window, out, |BigThree|)
  {
    var xs := ColumnValues(frame, metric);
    var first := SlidingMean(xs, window, window);
    out := WithRolling(frame, RollingStatColumn, first);
    var fw := FallbackWindow(SeriesMean(xs), first, window);
    var second := SlidingMean(xs, window, fw);
    assert fw == FixedWindow(xs, window);
    assert second == RollingStat(xs, window);
    var statSet := WithRolling(out, RollingStatColumn, second);
    assert SameRows(frame, statSet);
    out := statSet;
    assert RollingColumnsHold(frame, metric, window, out, 0);
    for k := 0 to |BigThree|
      invariant RollingColumnsHold(frame, metric, window, out, k)
    {
      var b := BigThree[k];
      var rt := RollingThreshold(b);
      var col := SlidingMean(ColumnValues(frame, b), rt, rt);
      RollingColumnsStep(frame, metric, window, out, k, col);
      out := WithRolling(out, RollingMetricColumn(b), col);
    }
  }

  /** The largest `pitches_faced` among the rows dated `d`, or -1 if none. */
  function LastOnDate(frame: seq<FrameRow>, d: int): (last: int)
    ensures last >= -1
    ensures last == -1 <==> forall i | 0 <= i < |frame| :: frame[i].date != d
    ensures last >= 0 ==> exists i | 0 <= i < |frame| :: frame[i].date == d && frame[i].pitchesFaced == last
    ensures forall i | 0 <= i < |frame| :: frame[i].date == d ==> frame[i].pitchesFaced <= last
  {
    if frame == [] then -1
    else
      var rest := LastOnDate(frame[1..], d);
      assert forall i | 1 <= i < |frame| :: frame[i] == frame[1..][i - 1];
      if frame[0].date == d && frame[0].pitchesFaced > rest then frame[0].pitchesFaced else rest
  }

  /** The thinning before the chart: the rows whose `pitches_faced` is the
      largest of their game date. */
  function Thin(frame: seq<FrameRow>): (out: seq<FrameRow>)
    ensures forall j | 0 <= j < |out| :: out[j] in frame && out[j].pitchesFaced == LastOnDate(frame, out[j].date)
    ensures forall x :: multiset(out)[x] <= multiset(frame)[x]
  {
    Filter(frame, (r: FrameRow) => r.pitchesFaced == LastOnDate(frame, r.date))
  }

  /** In an indexed frame each row occurs once. */
  lemma {:induction false} IndexedCountsOnce(frame: seq<FrameRow>, x: FrameRow)
    requires Indexed(frame)
    ensures multiset(frame)[x] <= 1
  {
    if frame != [] {
      var init := frame[..|frame| - 1];
      var last := frame[|frame| - 1];
      assert Indexed(init);
      IndexedCountsOnce(init, x);
      assert frame == init + [last];
      assert last !in init by {
        forall i | 0 <= i < |init| ensures init[i] != last {
          assert init[i].pitchesFaced == i < |init| == last.pitchesFaced;
        }
      }
    }
  }

  /** Thinning keeps exactly one row per game date: the date's last pitch. */
  lemma ThinOnePerDate(frame: seq<FrameRow>)
    requires Indexed(frame)
    ensures var out := Thin(frame);
      && (forall j1, j2 | 0 <= j1 < j2 < |out| :: out[j1].date != out[j2].date)
      && (forall i | 0 <= i < |frame| :: exists j | 0 <= j < |out| :: out[j].date == frame[i].date)
      && (forall j, i | 0 <= j < |out| && 0 <= i < |frame| && frame[i].date == out[j].date ::
            frame[i].pitchesFaced <= out[j].pitchesFaced)
  {
    var out := Thin(frame);
    forall j1, j2 | 0 <= j1 < j2 < |out| ensures out[j1].date != out[j2].date {
      if out[j1].date == out[j2].date {
        var i1 :| 0 <= i1 < |frame| && frame[i1] == out[j1];
        var i2 :| 0 <= i2 < |frame| && frame[i2] == out[j2];
        assert i1 == i2;
        MultisetCountOfDuplicate(out, j1, j2);
        IndexedCountsOnce(frame, out[j1]);
        assert false;
      }
    }
    forall i | 0 <= i < |frame| ensures exists j | 0 <= j < |out| :: out[j].date == frame[i].date {
      var d := frame[i].date;
      var k :| 0 <= k < |frame| && frame[k].date == d && frame[k].pitchesFaced == LastOnDate(frame, d);
      assert frame[k] in multiset(frame);
      assert frame[k] in multiset(out);
      var j :| 0 <= j < |out| && out[j] == frame[k];
    }
  }

  /** What the hitter chart shows: NaN-free guard and thinned series. */
  datatype ChartOutcome = Chart | NotEnough(shown: nat)

  /** The hitter guard as written: the window is compared with the
      unthinned sample, but the message reports the thinned row count. */
  function HitterGuardAsWritten(window: nat, seasonSample: nat, thinnedCount: nat): (o: ChartOutcome)
    ensures o == Chart <==> window <= seasonSample
    ensures o.NotEnough? ==> o.shown == thinnedCount
  {
    if window > seasonSample then NotEnough(thinnedCount) else Chart
  }

  /** The guard as intended: the message reports the count the window was
      compared with. */
  function HitterGuard(window: nat, seasonSample: nat): (o: ChartOutcome)
    ensures o == Chart <==> window <= seasonSample
    ensures o.NotEnough? ==> o.shown == seasonSample && o.shown < window
  {
    if window > seasonSample then NotEnough(seasonSample) else Chart
  }

  /** Two pitches on one date: a window of 3 is refused for a sample of 2,
      and the message as written reports 1 (one game) instead of 2. */
  lemma HitterGuardReportsThinnedCount()
    ensures var frame := [FrameRow(7, map[], 0, map[]), FrameRow(7, map[], 1, map[])];
      && |Thin(frame)| == 1
      && HitterGuardAsWritten(3, |frame|, |Thin(frame)|) == NotEnough(1)
      && HitterGuard(3, |frame|) == NotEnough(2)
  {
    var frame := [FrameRow(7, map[], 0, map[]), FrameRow(7, map[], 1, map[])];
    assert LastOnDate(frame[1..], 7) == 1;
    assert LastOnDate(frame, 7) == 1;
    assert Thin(frame) == [frame[1]];
  }

  /** The chart's points: at most one per game date and one for every date
      of the frame, each the date's last pitch, carrying the rolling mean
      that ends at that pitch. */
  ghost predicate ChartPoints(frame: seq<FrameRow>, metric: RollingMetric, window: nat, points: seq<FrameRow>)
    requires window >= 1 && HasValue(frame, metric)
  {
    && (forall j1, j2 | 0 <= j1 < j2 < |points| :: points[j1].date != points[j2].date)
    && (forall i | 0 <= i < |frame| :: exists j | 0 <= j < |points| :: points[j].date == frame[i].date)
    && forall j | 0 <= j < |points| ::
      && points[j].pitchesFaced < |frame|
      && points[j].date == frame[points[j].pitchesFaced].date
      && (forall i | 0 <= i < |frame| && frame[i].date == points[j].date :: i <= points[j].pitchesFaced)
      && RollingStatColumn in points[j].rolling
      && points[j].rolling[RollingStatColumn] == RollingStat(ColumnValues(frame, metric), window)[points[j].pitchesFaced]
  }

  /** Each thinned row is a row of the frame, at its own position, with
      `Rolling_Stat` as the assignments left it. */
  lemma ThinnedPointValues(frame: seq<FrameRow>, metric: RollingMetric, window: nat, withRolling: seq<FrameRow>)
    requires window >= 1 && Indexed(frame)
    requires HasValue(frame, metric) && forall b | b in BigThree :: HasValue(frame, b)
    requires RollingColumnsHold(frame, metric, window, withRolling, |BigThree|)
    ensures var points := Thin(withRolling);
      forall j | 0 <= j < |points| ::
        && points[j].pitchesFaced < |frame|
        && points[j].date == frame[points[j].pitchesFaced].date
        && RollingStatColumn in points[j].rolling
        && points[j].rolling[RollingStatColumn] == RollingStat(ColumnValues(frame, metric), window)[points[j].pitchesFaced]
  {
    var points := Thin(withRolling);
    var stat := RollingStat(ColumnValues(frame, metric), window);
    assert ColumnIs(withRolling, RollingStatColumn, stat);
    forall j | 0 <= j < |points|
      ensures points[j].pitchesFaced < |frame|
      ensures points[j].date == frame[points[j].pitchesFaced].date
      ensures RollingStatColumn in points[j].rolling
      ensures points[j].rolling[RollingStatColumn] == stat[points[j].pitchesFaced]
    {
      var i :| 0 <= i < |withRolling| && withRolling[i] == points[j];
      assert points[j].pitchesFaced == i;
    }
  }

  /** The thinned rows have distinct dates, cover every date of the frame,
      and each is its date's last pitch. */
  lemma ThinnedPointDates(frame: seq<FrameRow>, withRolling: seq<FrameRow>)
    requires Indexed(frame) && SameRows(frame, withRolling)
    ensures var points := Thin(withRolling);
      && (forall j1, j2 | 0 <= j1 < j2 < |points| :: points[j1].date != points[j2].date)
      && (forall i | 0 <= i < |frame| :: exists j | 0 <= j < |points| :: points[j].date == frame[i].date)
      && (forall j, i | 0 <= j < |points| && 0 <= i < |frame| && frame[i].date == points[j].date ::
            i <= points[j].pitchesFaced)
  {
    var points := Thin(withRolling);
    assert Indexed(withRolling);
    ThinOnePerDate(withRolling);
    forall i | 0 <= i < |frame| ensures exists j | 0 <= j < |points| :: points[j].date == frame[i].date {
      assert withRolling[i].date == frame[i].date;
    }
    forall j, i | 0 <= j < |points| && 0 <= i < |frame| && frame[i].date == points[j].date
      ensures i <= points[j].pitchesFaced
    {
      assert withRolling[i].date == frame[i].date && withRolling[i].pitchesFaced == i;
    }
  }

  /** Thinning the frame with its rolling columns gives the chart's points. */
  lemma ThinnedPoints(frame: seq<FrameRow>, metric: RollingMetric, window: nat, withRolling: seq<FrameRow>)
    requires window >= 1 && Indexed(frame)
    requires HasValue(frame, metric) && forall b | b in BigThree :: HasValue(frame, b)
    requires RollingColumnsHold(frame, metric, window, withRolling, |BigThree|)
    ensures ChartPoints(frame, metric, window, Thin(withRolling))
  {
    ThinnedPointValues(frame, metric, window, withRolling);
    ThinnedPointDates(frame, withRolling);
  }

  /** The hitter dashboard's rolling chart: the series, its rolling
      columns, the guard on the unthinned sample, and the thinned points. */
  method HitterRollingChart(rows: seq<Row>, player: string, h: Handedness, g: CountGroup, pitchType: string,
                            metric: RollingMetric, window: nat) returns (outcome: ChartOutcome, points: seq<FrameRow>)
    requires ValidGroup(g) && window >= 1
    ensures var frame := HitterFrame(rows, player, h, g, pitchType, metric);
      && HasValue(frame, metric)
      && outcome == HitterGuard(window, |frame|)
      && ChartPoints(frame, metric, window, points)
  {
    var frame := HitterFrame(rows, player, h, g, pitchType, metric);
    var withRolling := AddRollingColumns(frame, metric, window);
    outcome := HitterGuard(window, |frame|);
    points := Thin(withRolling);
    ThinnedPoints(frame, metric, window, withRolling);
  }

  // ---- The batter dashboard's series -------------------------------------------

  /** A row of the batter dashboard's `rolling_df`: its `index`, the metric
      and `Rolling_Stat`. */
  datatype SeriesPoint = SeriesPoint(index: int, value: real, rolling: Option<real>)

  /** The batter's rows with the metric present, in pitch order. The
      metric is any of the seven; the batter dashboard only offers the five
      `BatterMetric`s, which `BatterRollingChart` requires. */
  function BatterRows(rows: seq<Row>, player: string, metric: RollingMetric): (kept: seq<Row>)
    ensures PitchOrdered(kept)
    ensures forall r :: multiset(kept)[r] ==
                        (if r.p.hitter == player && Get(r.p, ColumnOf(metric)).Some? then multiset(rows)[r] else 0)
    ensures forall i | 0 <= i < |kept| :: kept[i].p.hitter == player && Get(kept[i].p, ColumnOf(metric)).Some?
  {
    SortedFilter(rows, (r: Row) => r.p.hitter == player && Get(r.p, ColumnOf(metric)).Some?)
  }

  /** The batter dashboard's `rolling_df` before `Rolling_Stat`: the values
      with their 0-based `index`. */
  function BatterSeries(rows: seq<Row>, player: string, metric: RollingMetric): (s: seq<SeriesPoint>)
    ensures |s| == |BatterRows(rows, player, metric)|
    ensures forall i | 0 <= i < |s| ::
      && s[i].index == i && s[i].rolling.None?
      && Get(BatterRows(rows, player, metric)[i].p, ColumnOf(metric)) == Some(s[i].value)
  {
    SeriesOf(BatterRows(rows, player, metric), metric)
  }

  /** The values of `metric` in `kept`, numbered from 0. */
  function SeriesOf(kept: seq<Row>, metric: RollingMetric): (s: seq<SeriesPoint>)
    requires forall i | 0 <= i < |kept| :: Get(kept[i].p, ColumnOf(metric)).Some?
    ensures |s| == |kept|
    ensures forall i | 0 <= i < |s| ::
      && s[i].index == i && s[i].rolling.None?
      && Get(kept[i].p, ColumnOf(metric)) == Some(s[i].value)
  {
    seq(|kept|, i requires 0 <= i < |kept| => SeriesPoint(i, Get(kept[i].p, ColumnOf(metric)).value, None))
  }

  function Values(s: seq<SeriesPoint>): (xs: seq<real>)
    ensures |xs| == |s| && forall i | 0 <= i < |s| :: xs[i] == s[i].value
  {
    seq(|s|, i requires 0 <= i < |s| => s[i].value)
  }

  /** `rolling_df['Rolling_Stat'] = rolling_df[metric].rolling(window).mean()`. */
  method AddBatterRolling(s: seq<SeriesPoint>, window: nat) returns (out: seq<SeriesPoint>)
    requires window >= 1
    ensures |out| == |s|
    ensures forall i | 0 <= i < |s| :: out[i] == s[i].(rolling := RollingMean(Values(s), window, window)[i])
  {
    var r := SlidingMean(Values(s), window, window);
    out := seq(|s|, i requires 0 <= i < |s| => s[i].(rolling := r[i]));
  }

  /** `rolling_df['index'] += 1`. */
  method ShiftIndex(s: seq<SeriesPoint>) returns (out: seq<SeriesPoint>)
    ensures |out| == |s|
    ensures forall i | 0 <= i < |s| :: out[i] == s[i].(index := s[i].index + 1)
  {
    out := [];
    var i := 0;
    while i < |s|
      invariant 0 <= i <= |s| && |out| == i
      invariant forall j | 0 <= j < i :: out[j] == s[j].(index := s[j].index + 1)
    {
      out := out + [s[i].(index := s[i].index + 1)];
      i := i + 1;
    }
  }

  /** The batter guard: the chart needs at least `window` values, and the
      message reports how many there are. */
  function BatterGuard(window: nat, n: nat): (o: ChartOutcome)
    ensures o == Chart <==> window <= n
    ensures o.NotEnough? ==> o.shown == n && n < window
  {
    if window > n then NotEnough(n) else Chart
  }

  /** With the default minimum number of periods, entry `i` is missing
      before the `w`-th value and is then the mean of the last `w` values. */
  lemma DefaultMinPeriods(xs: seq<real>, w: nat, i: int)
    requires w >= 1 && 0 <= i < |xs|
    ensures RollingMean(xs, w, w)[i].Some? <==> w - 1 <= i
    ensures RollingMean(xs, w, w)[i].Some? ==>
      RollingMean(xs, w, w)[i].value * (w as real) == Sum(xs[i + 1 - w..i + 1])
  {
    if w - 1 <= i {
      assert Window(xs, w, i) == xs[i + 1 - w..i + 1];
    }
  }

  /** The batter dashboard's rolling chart. When drawn, the plotted points
      are the series in pitch order, numbered 1..n, each with its
      default-window rolling mean. */
  method BatterRollingChart(rows: seq<Row>, player: string, metric: RollingMetric, window: nat)
    returns (outcome: ChartOutcome, points: seq<SeriesPoint>)
    requires BatterMetric(metric)
    requires window >= 1
    ensures var s := BatterSeries(rows, player, metric);
      && outcome == BatterGuard(window, |s|)
      && (outcome == Chart ==>
        && |points| == |s|
        && forall i | 0 <= i < |s| ::
          points[i] == SeriesPoint(i + 1, s[i].value, RollingMean(Values(s), window, window)[i]))
  {
    var s := BatterSeries(rows, player, metric);
    var withRolling := AddBatterRolling(s, window);
    outcome := BatterGuard(window, |s|);
    points := [];
    if outcome == Chart {
      points := ShiftIndex(withRolling);
    }
  }
}
