/** The season tables of both dashboards: group the loaded pitches by
    hitter, count them and average each metric, keep the hitters with enough
    pitches, order by the headline metric (wOBA added, shown as 'HP' or 'Hit
    Eff'), then rescale selected columns with `z_score_scaler` onto the Plus
    scale (PLV_Hitter_Metrics_test.py) or the 20-80 scale
    (PLV_Batter_Metrics.py). */
module Season {
  import opened Numeric
  import opened Pitches

  /** A column the season tables aggregate: a raw metric, or the in-zone /
      out-of-zone decision value (`zDV`, `oDV`). */
  datatype Stat = Metric(c: Col) | ZoneDV | OutsideDV

  function StatValue(r: Row, s: Stat): (v: Option<real>)
  {
    match s
    case Metric(c) => Get(r.p, c)
    case ZoneDV => r.d.dvZone
    case OutsideDV => r.d.dvOutside
  }

  /** Hitter names, each once, in order of first appearance. */
  function Names(rows: seq<Row>): (ns: seq<string>)
    ensures NoDup(ns)
    ensures forall n :: n in ns <==> exists i | 0 <= i < |rows| :: rows[i].p.hitter == n
  {
    if rows == [] then []
    else
      var init := rows[..|rows| - 1];
      var prefix := Names(init);
      var n := rows[|rows| - 1].p.hitter;
      assert forall i | 0 <= i < |init| :: init[i] == rows[i];
      if n in prefix then prefix else prefix + [n]
  }

  /** The rows of one hitter, in order. */
  function PlayerRows(rows: seq<Row>, name: string): (r: seq<Row>)
    ensures forall i | 0 <= i < |r| :: r[i].p.hitter == name
    ensures |r| == 0 <==> forall i | 0 <= i < |rows| :: rows[i].p.hitter != name
    ensures forall x :: multiset(r)[x] == if x.p.hitter == name then multiset(rows)[x] else 0
  {
    if rows == [] then []
    else
      var rest := PlayerRows(rows[1..], name);
      PlayerRowsStep(rows, name, rest);
      (if rows[0].p.hitter == name then [rows[0]] else []) + rest
  }

  /** Keeping or dropping the first row extends the filter of the others. */
  lemma PlayerRowsStep(rows: seq<Row>, name: string, rest: seq<Row>)
    requires rows != []
    requires forall i | 0 <= i < |rest| :: rest[i].p.hitter == name
    requires |rest| == 0 <==> forall i | 1 <= i < |rows| :: rows[i].p.hitter != name
    requires forall x :: multiset(rest)[x] == if x.p.hitter == name then multiset(rows[1..])[x] else 0
    ensures var r := (if rows[0].p.hitter == name then [rows[0]] else []) + rest;
      && (forall i | 0 <= i < |r| :: r[i].p.hitter == name)
      && (|r| == 0 <==> forall i | 0 <= i < |rows| :: rows[i].p.hitter != name)
      && forall x :: multiset(r)[x] == if x.p.hitter == name then multiset(rows)[x] else 0
  {
    var head := if rows[0].p.hitter == name then [rows[0]] else [];
    assert rows == [rows[0]] + rows[1..];
    assert multiset(head + rest) == multiset(head) + multiset(rest);
  }

  function Column(rows: seq<Row>, s: Stat): (col: seq<Option<real>>)
    ensures |col| == |rows|
  {
    seq(|rows|, i requires 0 <= i < |rows| => StatValue(rows[i], s))
  }

  /** One row of the season table: name, `Pitches` and one mean per stat. */
  datatype SeasonRow = SeasonRow(name: string, pitches: nat, means: map<Stat, Option<real>>)

  /** `groupby(name).agg(...)` for one hitter: the pitch count and each
      stat's mean over the hitter's present values. */
  function Summarise(rows: seq<Row>, name: string, stats: set<Stat>): (r: SeasonRow)
    ensures r.name == name && r.means.Keys == stats
    ensures r.pitches == |PlayerRows(rows, name)|
    ensures forall s | s in stats :: r.means[s] == MeanPresent(Column(PlayerRows(rows, name), s))
  {
    var mine := PlayerRows(rows, name);
    SeasonRow(name, |mine|, map s | s in stats :: MeanPresent(Column(mine, s)))
  }

  /** The aggregated rows of the hitters in `ns`, followed by
      `query('Pitches >= threshold')`. */
  function AggregateNames(rows: seq<Row>, ns: seq<string>, stats: set<Stat>, threshold: int): (t: seq<SeasonRow>)
    ensures forall r :: r in t <==> r.name in ns && r == Summarise(rows, r.name, stats) && r.pitches >= threshold
  {
    if ns == [] then []
    else
      var r := Summarise(rows, ns[0], stats);
      assert forall x :: x in ns <==> x == ns[0] || x in ns[1..];
      (if r.pitches >= threshold then [r] else []) + AggregateNames(rows, ns[1..], stats, threshold)
  }

  /** The value of one stat in a row; missing when the row lacks the stat. */
  function Cell(r: SeasonRow, h: Stat): (v: Option<real>)
  {
    if h in r.means then r.means[h] else None
  }

  /** `a` may stand before `b` in `sort_values(ascending=False)`: larger
      first, missing values last. */
  predicate Before(a: Option<real>, b: Option<real>)
  {
    match a
    case None => b.None?
    case Some(x) => b.None? || x >= b.value
  }

  /** Neighbouring rows are in headline order (for a total preorder such as
      `Before`, the same as every pair being in order; see `SortedPairwise`). */
  predicate SortedBy(t: seq<SeasonRow>, h: Stat)
  {
    forall i | 0 <= i < |t| - 1 :: Before(Cell(t[i], h), Cell(t[i + 1], h))
  }

  lemma BeforeTransitive(a: Option<real>, b: Option<real>, c: Option<real>)
    requires Before(a, b) && Before(b, c)
    ensures Before(a, c)
  {
  }

  /** An adjacent-sorted table is in order pair by pair. */
  lemma {:induction false} SortedPairwise(t: seq<SeasonRow>, h: Stat, i: int, j: int)
    requires SortedBy(t, h)
    requires 0 <= i < j < |t|
    ensures Before(Cell(t[i], h), Cell(t[j], h))
    decreases j - i
  {
    if i + 1 < j {
      SortedPairwise(t, h, i + 1, j);
      BeforeTransitive(Cell(t[i], h), Cell(t[i + 1], h), Cell(t[j], h));
    }
  }

  /** Puts `r` in front of the first row it may precede. */
  function Insert(r: SeasonRow, t: seq<SeasonRow>, h: Stat): (out: seq<SeasonRow>)
    ensures multiset(out) == multiset([r] + t)
    ensures |out| == |t| + 1 && (out[0] == r || (|t| > 0 && out[0] == t[0]))
  {
    if t == [] then [r]
    else if Before(Cell(r, h), Cell(t[0], h)) then [r] + t
    else
      assert t == [t[0]] + t[1..];
      [t[0]] + Insert(r, t[1..], h)
  }

  lemma {:induction false} InsertSorted(r: SeasonRow, t: seq<SeasonRow>, h: Stat)
    requires SortedBy(t, h)
    ensures SortedBy(Insert(r, t, h), h)
  {
    if t != [] && !Before(Cell(r, h), Cell(t[0], h)) {
      var rest := Insert(r, t[1..], h);
      InsertSorted(r, t[1..], h);
      var out := [t[0]] + rest;
      assert out == Insert(r, t, h);
      if rest[0] != r {
        assert rest[0] == t[1];
      }
      assert Before(Cell(out[0], h), Cell(out[1], h));
      forall i | 1 <= i < |out| - 1 ensures Before(Cell(out[i], h), Cell(out[i + 1], h)) {
        assert out[i] == rest[i - 1] && out[i + 1] == rest[i];
      }
    }
  }

  /** `sort_values(h, ascending=False)`: a permutation in non-increasing
      headline order, missing values last. */
  function SortByHeadline(t: seq<SeasonRow>, h: Stat): (out: seq<SeasonRow>)
    ensures multiset(out) == multiset(t)
    ensures SortedBy(out, h)
  {
    if t == [] then []
    else
      assert t == [t[0]] + t[1..];
      var rest := SortByHeadline(t[1..], h);
      InsertSorted(t[0], rest, h);
      Insert(t[0], rest, h)
  }

  /** The season table before rescaling. */
  function SeasonTable(rows: seq<Row>, stats: set<Stat>, threshold: int, headline: Stat): (t: seq<SeasonRow>)
    ensures multiset(t) == multiset(AggregateNames(rows, Names(rows), stats, threshold))
    ensures SortedBy(t, headline)
  {
    SortByHeadline(AggregateNames(rows, Names(rows), stats, threshold), headline)
  }

  /** A hitter is in the table exactly when they faced at least `threshold`
      pitches, with their own count and means, and the table is ordered by the
      headline. */
  lemma SeasonTableContents(rows: seq<Row>, stats: set<Stat>, threshold: int, headline: Stat)
    ensures forall r :: r in SeasonTable(rows, stats, threshold, headline) <==>
      (exists i | 0 <= i < |rows| :: rows[i].p.hitter == r.name)
      && r == Summarise(rows, r.name, stats) && r.pitches >= threshold
    ensures SortedBy(SeasonTable(rows, stats, threshold, headline), headline)
  {
    var agg := AggregateNames(rows, Names(rows), stats, threshold);
    var t := SeasonTable(rows, stats, threshold, headline);
    assert multiset(t) == multiset(agg);
    forall r ensures r in t <==> r in agg {
      assert r in t <==> r in multiset(t);
      assert r in agg <==> r in multiset(agg);
    }
  }

  /** No hitter is listed twice. */
  lemma SeasonTableNamesDistinct(rows: seq<Row>, stats: set<Stat>, threshold: int, headline: Stat, i: int, j: int)
    requires 0 <= i < j < |SeasonTable(rows, stats, threshold, headline)|
    ensures SeasonTable(rows, stats, threshold, headline)[i].name != SeasonTable(rows, stats, threshold, headline)[j].name
  {
    var agg := AggregateNames(rows, Names(rows), stats, threshold);
    var t := SeasonTable(rows, stats, threshold, headline);
    SeasonTableContents(rows, stats, threshold, headline);
    assert t[i] in t && t[j] in t;
    MultisetCountOfDuplicate(t, i, j);
    AggregateCountsOnce(rows, Names(rows), stats, threshold, t[i]);
    assert multiset(agg)[t[i]] <= 1;
    assert t[i] != t[j];
  }

  /** With distinct names, each row occurs at most once in the aggregate. */
  lemma {:induction false} AggregateCountsOnce(rows: seq<Row>, ns: seq<string>, stats: set<Stat>, threshold: int, r: SeasonRow)
    requires NoDup(ns)
    ensures multiset(AggregateNames(rows, ns, stats, threshold))[r] <= 1
  {
    if ns != [] {
      var tail := ns[1..];
      assert NoDup(tail);
      AggregateCountsOnce(rows, tail, stats, threshold, r);
      var head := Summarise(rows, ns[0], stats);
      if r == head {
        assert ns[0] !in tail;
        assert r !in AggregateNames(rows, tail, stats, threshold);
      }
    }
  }

  /** Raising the pitch threshold can only remove hitters: the table for the
      higher threshold is contained in the other, and the hitters dropped
      are exactly those with fewer pitches than the higher threshold. */
  lemma ThresholdMonotone(rows: seq<Row>, stats: set<Stat>, t1: int, t2: int, headline: Stat)
    requires t1 <= t2
    ensures forall r | r in SeasonTable(rows, stats, t2, headline) :: r in SeasonTable(rows, stats, t1, headline)
    ensures forall r | r in SeasonTable(rows, stats, t1, headline) ::
      r !in SeasonTable(rows, stats, t2, headline) <==> r.pitches < t2
  {
    SeasonTableContents(rows, stats, t1, headline);
    SeasonTableContents(rows, stats, t2, headline);
  }

  // ---- Rescaling ------------------------------------------------------------

  /** One column of the table, row by row. */
  function TableColumn(t: seq<SeasonRow>, s: Stat): (col: seq<Option<real>>)
    ensures |col| == |t|
  {
    seq(|t|, i requires 0 <= i < |t| => Cell(t[i], s))
  }

  /** The column can be z-scored: every row has a value, there are at least
      two rows and the standard deviation is not zero. */
  predicate Scalable(col: seq<Option<real>>, sigma: real)
  {
    AllPresent(col) && |col| >= 2 && sigma != 0.0
  }

  /** `z_score_scaler` yields NaN for some row of a non-empty column: a
      missing mean, a standard deviation that is NaN (one row) or zero. */
  predicate Degenerate(col: seq<Option<real>>, sigma: real)
  {
    |col| > 0 && !Scalable(col, sigma)
  }

  /** pandas `mean()` of a complete, non-empty column. */
  function ColumnMean(col: seq<Option<real>>): (m: real)
    requires AllPresent(col) && |col| > 0
  {
    PresentAll(col);
    Mean(Present(col))
  }

  /** `z_score_scaler`: each value's distance from the column mean, in
      standard deviations. */
  function ZScores(col: seq<Option<real>>, sigma: real): (z: seq<real>)
    requires Scalable(col, sigma)
    ensures |z| == |col|
    ensures forall i | 0 <= i < |col| :: z[i] == (col[i].value - ColumnMean(col)) / sigma
  {
    PresentAll(col);
    forall i | 0 <= i < |col| ensures Shift(Present(col), ColumnMean(col))[i] == col[i].value - ColumnMean(col) {
      ShiftAt(Present(col), ColumnMean(col), i);
    }
    var xs := Present(col);
    Divide(Shift(xs, Mean(xs)), sigma)
  }

  /** The z-scores of a column add up to zero. */
  lemma ZScoresSumToZero(col: seq<Option<real>>, sigma: real)
    requires Scalable(col, sigma)
    ensures Sum(ZScores(col, sigma)) == 0.0
  {
    PresentAll(col);
    var xs := Present(col);
    var shifted := Shift(xs, Mean(xs));
    assert MeanPresent(col) == Some(Mean(xs));
    ShiftByMeanSumsToZero(col);
    assert Sum(shifted) == 0.0;
    SumDivide(shifted, sigma);
    assert Sum(Divide(shifted, sigma)) == 0.0 / sigma == 0.0;
    assert ZScores(col, sigma) == Divide(shifted, sigma);
  }

  lemma DivideMonotone(a: real, b: real, d: real)
    requires d > 0.0
    ensures a <= b <==> a / d <= b / d
  {
    var qa, qb := a / d, b / d;
    assert qa * d == a && qb * d == b;
    if qa > qb {
      assert (qa - qb) * d > 0.0;
      assert (qa - qb) * d == a - b;
    } else if qa < qb {
      assert (qb - qa) * d > 0.0;
      assert (qb - qa) * d == b - a;
    }
  }

  /** With a positive standard deviation, z-scoring keeps the order of the
      values in both directions. */
  lemma ZScoresOrder(col: seq<Option<real>>, sigma: real, i: int, j: int)
    requires Scalable(col, sigma) && sigma > 0.0
    requires 0 <= i < |col| && 0 <= j < |col|
    ensures col[i].value <= col[j].value <==> ZScores(col, sigma)[i] <= ZScores(col, sigma)[j]
  {
    PresentAll(col);
    var xs := Present(col);
    var m := Mean(xs);
    ShiftAt(xs, m, i);
    ShiftAt(xs, m, j);
    DivideMonotone(xs[i] - m, xs[j] - m, sigma);
  }

  /** The two scales of the dashboards. */
  datatype Scale = Plus | TwentyEighty

  /** The Plus scale: `round(z * 15 + 100, 0)` cast to an integer, so the
      mean maps to 100 and one standard deviation is 15 points. */
  function PlusScore(z: real): (r: int)
    ensures -0.5 <= (r as real) - (z * 15.0 + 100.0) <= 0.5
    ensures (r as real) - (z * 15.0 + 100.0) == 0.5 || (r as real) - (z * 15.0 + 100.0) == -0.5 ==> r % 2 == 0
  {
    RoundHalfEven(z * 15.0 + 100.0)
  }

  /** The 20-80 scouting scale: `round(z * 2 + 10, 0) * 5`, clipped to
      20..80 and cast to an integer. Every grade is a multiple of 5; the
      grade saturates at 80 exactly from 2.75 standard deviations above the
      mean (the tie 15.5 rounds to 16) and at 20 exactly from 2.75 below (4.5
      rounds to 4); in between it is the multiple of 5 nearest 50 + 10 z,
      ties going to an even multiple of 5. */
  function ScoutScore(z: real): (r: int)
    ensures 20 <= r <= 80 && r % 5 == 0
    ensures r == 80 <==> z >= 2.75
    ensures r == 20 <==> z <= -2.75
    ensures 20 < r < 80 ==> -2.5 <= (r as real) - (z * 10.0 + 50.0) <= 2.5
    ensures var d := (r as real) - (z * 10.0 + 50.0); 20 < r < 80 && (d == 2.5 || d == -2.5) ==> r % 10 == 0
  {
    var y := z * 2.0 + 10.0;
    RoundHalfEvenUnique(15.5, 16);
    RoundHalfEvenUnique(4.5, 4);
    if y >= 15.5 then RoundHalfEvenMonotone(15.5, y); ClipInt(RoundHalfEven(y) * 5, 20, 80)
    else if y <= 4.5 then RoundHalfEvenMonotone(y, 4.5); ClipInt(RoundHalfEven(y) * 5, 20, 80)
    else ClipInt(RoundHalfEven(y) * 5, 20, 80)
  }

  function Score(scale: Scale, z: real): (grade: int)
  {
    match scale
    case Plus => PlusScore(z)
    case TwentyEighty => ScoutScore(z)
  }

  /** A higher z-score never gets a lower grade, on either scale. */
  lemma ScoreMonotone(scale: Scale, z1: real, z2: real)
    requires z1 <= z2
    ensures Score(scale, z1) <= Score(scale, z2)
  {
    match scale
    case Plus => RoundHalfEvenMonotone(z1 * 15.0 + 100.0, z2 * 15.0 + 100.0);
    case TwentyEighty => RoundHalfEvenMonotone(z1 * 2.0 + 10.0, z2 * 2.0 + 10.0);
  }

  /** The average hitter is a 100 (Plus) or a 50 (20-80); one standard
      deviation above is 115 or 60, one below 85 or 40. The tie 100.5 goes
      down to 100, and 1.2 deviations (12.4 before the factor 5) grade 60. */
  lemma ScoreLandmarks()
    ensures PlusScore(0.0) == 100 && PlusScore(1.0) == 115 && PlusScore(-1.0) == 85
    ensures ScoutScore(0.0) == 50 && ScoutScore(1.0) == 60 && ScoutScore(-1.0) == 40
    ensures PlusScore(1.0 / 30.0) == 100 && ScoutScore(1.2) == 60
  {
    RoundHalfEvenUnique(100.5, 100);
    RoundHalfEvenUnique(12.4, 12);
    RoundHalfEvenOfInt(100);
    RoundHalfEvenOfInt(115);
    RoundHalfEvenOfInt(85);
    RoundHalfEvenOfInt(10);
    RoundHalfEvenOfInt(12);
    RoundHalfEvenOfInt(8);
  }

  /** `g` is a grade that z-score `z` may get on `scale`: the clauses of
      `PlusScore` and `ScoutScore`, which pin the grade down. */
  predicate Graded(scale: Scale, z: real, g: int)
  {
    match scale
    case Plus =>
      var d := (g as real) - (z * 15.0 + 100.0);
      && -0.5 <= d <= 0.5
      && (d == 0.5 || d == -0.5 ==> g % 2 == 0)
    case TwentyEighty =>
      var d := (g as real) - (z * 10.0 + 50.0);
      && 20 <= g <= 80 && g % 5 == 0
      && (g == 80 <==> z >= 2.75)
      && (g == 20 <==> z <= -2.75)
      && (20 < g < 80 ==> -2.5 <= d <= 2.5)
      && (20 < g < 80 && (d == 2.5 || d == -2.5) ==> g % 10 == 0)
  }

  /** The grades of a scalable column, row by row. */
  function ScaledColumn(col: seq<Option<real>>, sigma: real, scale: Scale): (r: seq<int>)
    requires Scalable(col, sigma)
    ensures |r| == |col|
    ensures forall i {:trigger Graded(scale, ZScores(col, sigma)[i], r[i])} | 0 <= i < |col| ::
      Graded(scale, ZScores(col, sigma)[i], r[i])
  {
    var z := ZScores(col, sigma);
    seq(|col|, i requires 0 <= i < |col| => Score(scale, z[i]))
  }

  /** A hitter with a higher raw value never gets a lower grade. */
  lemma ScaledColumnMonotone(col: seq<Option<real>>, sigma: real, scale: Scale, i: int, j: int)
    requires Scalable(col, sigma) && sigma > 0.0
    requires 0 <= i < |col| && 0 <= j < |col|
    requires col[i].value <= col[j].value
    ensures ScaledColumn(col, sigma, scale)[i] <= ScaledColumn(col, sigma, scale)[j]
  {
    ZScoresOrder(col, sigma, i, j);
    ScoreMonotone(scale, ZScores(col, sigma)[i], ZScores(col, sigma)[j]);
  }

  /** The table with column `s` replaced by integer grades. */
  function WithColumn(t: seq<SeasonRow>, s: Stat, vals: seq<int>): (u: seq<SeasonRow>)
    requires |vals| == |t|
    ensures |u| == |t|
    ensures forall i | 0 <= i < |t| ::
      && u[i].name == t[i].name && u[i].pitches == t[i].pitches
      && u[i].means.Keys == t[i].means.Keys + {s}
      && Cell(u[i], s) == Some(vals[i] as real)
      && forall s' | s' != s :: Cell(u[i], s') == Cell(t[i], s')
  {
    seq(|t|, i requires 0 <= i < |t| => t[i].(means := t[i].means[s := Some(vals[i] as real)]))
  }

  /** Row `i` of the rescaled table: the same hitter, count and columns, with
      every listed stat replaced by its grade and every other stat kept. */
  ghost predicate RescaledRow(table: seq<SeasonRow>, stats: seq<Stat>, scale: Scale, sigma: map<Stat, real>, i: int, u: SeasonRow)
    requires 0 <= i < |table|
    requires forall s | s in stats :: s in sigma && Scalable(TableColumn(table, s), sigma[s])
  {
    && u.name == table[i].name && u.pitches == table[i].pitches
    && u.means.Keys == table[i].means.Keys
    && forall s :: Cell(u, s) ==
         if s in stats then Some(ScaledColumn(TableColumn(table, s), sigma[s], scale)[i] as real)
         else Cell(table[i], s)
  }

  /** The loop state after the first `k` listed stats: those columns are
      scalable and hold their grades, everything else is as in `table`. */
  ghost predicate ScaledUpTo(table: seq<SeasonRow>, stats: seq<Stat>, scale: Scale, sigma: map<Stat, real>, k: int, t: seq<SeasonRow>)
  {
    && 0 <= k <= |stats|
    && (forall j | 0 <= j < k :: stats[j] in sigma && Scalable(TableColumn(table, stats[j]), sigma[stats[j]]))
    && |t| == |table|
    && (forall i | 0 <= i < |t| ::
         t[i].name == table[i].name && t[i].pitches == table[i].pitches && t[i].means.Keys == table[i].means.Keys)
    && (forall i, j | 0 <= i < |t| && 0 <= j < k ::
         Cell(t[i], stats[j]) == Some(ScaledColumn(TableColumn(table, stats[j]), sigma[stats[j]], scale)[i] as real))
    && (forall i, s | 0 <= i < |t| && s !in stats[..k] :: Cell(t[i], s) == Cell(table[i], s))
  }

  /** Grading the next listed column extends the loop state by one. */
  lemma ScaleNext(table: seq<SeasonRow>, stats: seq<Stat>, scale: Scale, sigma: map<Stat, real>, k: int, t: seq<SeasonRow>)
    requires NoDup(stats) && 0 <= k < |stats|
    requires forall s | s in stats :: s in sigma
    requires ScaledUpTo(table, stats, scale, sigma, k, t)
    requires Scalable(TableColumn(t, stats[k]), sigma[stats[k]])
    ensures TableColumn(t, stats[k]) == TableColumn(table, stats[k])
    ensures ScaledUpTo(table, stats, scale, sigma, k + 1,
      WithColumn(t, stats[k], ScaledColumn(TableColumn(t, stats[k]), sigma[stats[k]], scale)))
  {
    var s := stats[k];
    assert s !in stats[..k];
    ColumnUnchanged(table, t, s);
    var u := WithColumn(t, s, ScaledColumn(TableColumn(t, s), sigma[s], scale));
    ScaleNextGraded(table, stats, scale, sigma, k, t, u);
    TakeNext(stats, k);
    ScaleNextRest(table, stats, scale, sigma, k, t);
  }

  /** After `ScaleNext`, the first `k + 1` listed columns hold their grades. */
  lemma ScaleNextGraded(table: seq<SeasonRow>, stats: seq<Stat>, scale: Scale, sigma: map<Stat, real>, k: int, t: seq<SeasonRow>,
                        u: seq<SeasonRow>)
    requires NoDup(stats) && 0 <= k < |stats|
    requires forall s | s in stats :: s in sigma
    requires ScaledUpTo(table, stats, scale, sigma, k, t)
    requires TableColumn(t, stats[k]) == TableColumn(table, stats[k])
    requires Scalable(TableColumn(table, stats[k]), sigma[stats[k]])
    requires u == WithColumn(t, stats[k], ScaledColumn(TableColumn(table, stats[k]), sigma[stats[k]], scale))
    ensures forall j | 0 <= j < k + 1 :: Scalable(TableColumn(table, stats[j]), sigma[stats[j]])
    ensures forall i, j | 0 <= i < |u| && 0 <= j < k + 1 ::
      Cell(u[i], stats[j]) == Some(ScaledColumn(TableColumn(table, stats[j]), sigma[stats[j]], scale)[i] as real)
  {
    var s := stats[k];
    assert s !in stats[..k];
    forall i, j | 0 <= i < |u| && 0 <= j < k + 1
      ensures Cell(u[i], stats[j]) == Some(ScaledColumn(TableColumn(table, stats[j]), sigma[stats[j]], scale)[i] as real)
    {
      if j < k {
        assert stats[j] != s;
      }
    }
  }

  /** After `ScaleNext`, the names and every column not yet reached are as in `table`. */
  lemma ScaleNextRest(table: seq<SeasonRow>, stats: seq<Stat>, scale: Scale, sigma: map<Stat, real>, k: int, t: seq<SeasonRow>)
    requires 0 <= k < |stats|
    requires ScaledUpTo(table, stats, scale, sigma, k, t)
    requires stats[k] in sigma && Scalable(TableColumn(t, stats[k]), sigma[stats[k]])
    requires stats[..k + 1] == stats[..k] + [stats[k]]
    ensures forall i | 0 <= i < |t| ::
      var u := WithColumn(t, stats[k], ScaledColumn(TableColumn(t, stats[k]), sigma[stats[k]], scale));
      u[i].name == table[i].name && u[i].pitches == table[i].pitches && u[i].means.Keys == table[i].means.Keys
    ensures forall i, s' | 0 <= i < |t| && s' !in stats[..k + 1] ::
      Cell(WithColumn(t, stats[k], ScaledColumn(TableColumn(t, stats[k]), sigma[stats[k]], scale))[i], s') == Cell(table[i], s')
  {
    var s := stats[k];
    var col := TableColumn(t, s);
    var u := WithColumn(t, s, ScaledColumn(col, sigma[s], scale));
    forall i | 0 <= i < |u|
      ensures u[i].name == table[i].name && u[i].pitches == table[i].pitches && u[i].means.Keys == table[i].means.Keys
    {
      assert Cell(t[i], s) == col[i];
    }
  }

  lemma TakeNext<T>(xs: seq<T>, k: int)
    requires 0 <= k < |xs|
    ensures xs[..k + 1] == xs[..k] + [xs[k]]
  {
  }

  lemma ColumnUnchanged(table: seq<SeasonRow>, t: seq<SeasonRow>, s: Stat)
    requires |t| == |table|
    requires forall i | 0 <= i < |t| :: Cell(t[i], s) == Cell(table[i], s)
    ensures TableColumn(t, s) == TableColumn(table, s)
  {
  }

  /** Once every listed column is graded, each row is the rescaled row and no
      listed column was degenerate. */
  lemma ScaledAll(table: seq<SeasonRow>, stats: seq<Stat>, scale: Scale, sigma: map<Stat, real>, t: seq<SeasonRow>)
    requires forall s | s in stats :: s in sigma
    requires ScaledUpTo(table, stats, scale, sigma, |stats|, t)
    ensures !exists s | s in stats :: s in sigma && Degenerate(TableColumn(table, s), sigma[s])
    ensures |t| == |table|
    ensures forall i | 0 <= i < |table| :: RescaledRow(table, stats, scale, sigma, i, t[i])
  {
    assert stats[..|stats|] == stats;
    forall s | s in stats ensures Scalable(TableColumn(table, s), sigma[s]) {
      var j :| 0 <= j < |stats| && stats[j] == s;
    }
    forall i, s | 0 <= i < |table| && s in stats
      ensures Cell(t[i], s) == Some(ScaledColumn(TableColumn(table, s), sigma[s], scale)[i] as real)
    {
      var j :| 0 <= j < |stats| && stats[j] == s;
    }
  }

  lemma NothingToGrade(table: seq<SeasonRow>, stats: seq<Stat>, sigma: map<Stat, real>)
    requires |table| == 0
    requires forall s | s in stats :: s in sigma
    ensures !exists s | s in stats :: Degenerate(TableColumn(table, s), sigma[s])
  {
  }

  /** One pass of the loop: grade column `stats[k]`, or report that
      `z_score_scaler` leaves a NaN in it. */
  method GradeColumn(table: seq<SeasonRow>, stats: seq<Stat>, scale: Scale, sigma: map<Stat, real>, k: int, t: seq<SeasonRow>)
    returns (ok: bool, u: seq<SeasonRow>)
    requires NoDup(stats) && 0 <= k < |stats| && |table| > 0
    requires forall s | s in stats :: s in sigma
    requires ScaledUpTo(table, stats, scale, sigma, k, t)
    ensures ok ==> ScaledUpTo(table, stats, scale, sigma, k + 1, u)
    ensures !ok ==> Degenerate(TableColumn(table, stats[k]), sigma[stats[k]])
  {
    var s := stats[k];
    var col := TableColumn(t, s);
    if !Scalable(col, sigma[s]) {
      assert s !in stats[..k];
      ColumnUnchanged(table, t, s);
      return false, t;
    }
    ScaleNext(table, stats, scale, sigma, k, t);
    return true, WithColumn(t, s, ScaledColumn(col, sigma[s], scale));
  }

  /** The `for stat in [...]` loop that puts the listed columns on a scale.
      `sigma[s]` is pandas' `std()` of column `s`. The scripts cast each
      grade with `astype('int')`, which raises on the first column that
      `z_score_scaler` turned into NaN. */
  method Rescale(table: seq<SeasonRow>, stats: seq<Stat>, scale: Scale, sigma: map<Stat, real>)
    returns (res: Result<seq<SeasonRow>, Error>)
    requires NoDup(stats)
    requires forall s | s in stats :: s in sigma && IsStdDev(TableColumn(table, s), sigma[s])
    ensures res.Failure? <==> exists s | s in stats :: Degenerate(TableColumn(table, s), sigma[s])
    ensures res.Success? ==>
      && |res.value| == |table|
      && forall i | 0 <= i < |table| :: RescaledRow(table, stats, scale, sigma, i, res.value[i])
  {
    if |table| == 0 {
      NothingToGrade(table, stats, sigma);
      return Success(table);
    }
    res := RescaleRows(table, stats, scale, sigma);
  }

  /** `Rescale` on a table with at least one row. */
  method RescaleRows(table: seq<SeasonRow>, stats: seq<Stat>, scale: Scale, sigma: map<Stat, real>)
    returns (res: Result<seq<SeasonRow>, Error>)
    requires NoDup(stats) && |table| > 0
    requires forall s | s in stats :: s in sigma
    ensures res.Failure? <==> exists s | s in stats :: Degenerate(TableColumn(table, s), sigma[s])
    ensures res.Success? ==>
      && |res.value| == |table|
      && forall i | 0 <= i < |table| :: RescaledRow(table, stats, scale, sigma, i, res.value[i])
  {
    var t := table;
    var k := 0;
    while k < |stats|
      invariant ScaledUpTo(table, stats, scale, sigma, k, t)
    {
      var ok, u := GradeColumn(table, stats, scale, sigma, k, t);
      if !ok {
        return Failure(CannotCastNaNToInt);
      }
      t, k := u, k + 1;
    }
    ScaledAll(table, stats, scale, sigma, t);
    return Success(t);
  }

  /** Putting the headline column on a scale keeps the table in headline
      order: grades are monotone in the raw value. */
  lemma RescaleKeepsOrder(table: seq<SeasonRow>, h: Stat, sigma: real, scale: Scale, u: seq<SeasonRow>)
    requires SortedBy(table, h)
    requires Scalable(TableColumn(table, h), sigma) && sigma > 0.0
    requires |u| == |table|
    requires forall i | 0 <= i < |u| :: Cell(u[i], h) == Some(ScaledColumn(TableColumn(table, h), sigma, scale)[i] as real)
    ensures SortedBy(u, h)
  {
    var col := TableColumn(table, h);
    forall i | 0 <= i < |u| - 1 ensures Before(Cell(u[i], h), Cell(u[i + 1], h)) {
      assert col[i] == Cell(table[i], h) && col[i + 1] == Cell(table[i + 1], h);
      ScaledColumnMonotone(col, sigma, scale, i + 1, i);
    }
  }

  // ---- The two dashboards' season tables ------------------------------------

  /** `HP` and `Hit Eff`: the per-pitch wOBA added. */
  const Headline: Stat := Metric(BatterWoba)

  /** The aggregated columns of the hitter dashboard. */
  const HitterSeasonStats: set<Stat> := {Metric(SwingAgg), Metric(SzJudge), Metric(DecisionValue), ZoneDV,
                                         OutsideDV, Metric(ContactOE), Metric(AdjPower), Metric(BatterWoba)}

  /** The hitter dashboard's columns put on the Plus scale (Swing Agg is not). */
  const HitterPlusStats: seq<Stat> := [Metric(SzJudge), Metric(ContactOE), Metric(DecisionValue), ZoneDV,
                                       OutsideDV, Metric(AdjPower), Metric(BatterWoba)]

  /** The aggregated columns of the batter dashboard. */
  const BatterSeasonStats: set<Stat> := {Metric(SwingAgg), Metric(SzJudge), Metric(DecisionValue),
                                         Metric(ContactOE), Metric(AdjPower), Metric(BatterWoba)}

  /** The batter dashboard's columns put on the 20-80 scale. */
  const BatterScoutStats: seq<Stat> := [Metric(SzJudge), Metric(ContactOE), Metric(DecisionValue),
                                        Metric(AdjPower), Metric(BatterWoba)]

  lemma StatListsDistinct()
    ensures NoDup(HitterPlusStats) && NoDup(BatterScoutStats)
  {
  }

  /** The batter dashboard's fixed pitch minimum. */
  const BatterMinPitches := 400

  /** The hitter dashboard's season table: hitters with at least
      `pitchThresh` pitches, ordered by HP, seven columns on the Plus scale.
      It stays in HP order after rescaling. */
  method HitterSeason(rows: seq<Row>, pitchThresh: int, sigma: map<Stat, real>)
    returns (res: Result<seq<SeasonRow>, Error>)
    requires forall s | s in HitterPlusStats ::
      s in sigma && IsStdDev(TableColumn(SeasonTable(rows, HitterSeasonStats, pitchThresh, Headline), s), sigma[s])
    ensures var table := SeasonTable(rows, HitterSeasonStats, pitchThresh, Headline);
      && (res.Failure? <==> exists s | s in HitterPlusStats :: Degenerate(TableColumn(table, s), sigma[s]))
      && (res.Success? ==>
           && |res.value| == |table|
           && (forall i | 0 <= i < |table| :: RescaledRow(table, HitterPlusStats, Plus, sigma, i, res.value[i]))
           && SortedBy(res.value, Headline))
  {
    var table := SeasonTable(rows, HitterSeasonStats, pitchThresh, Headline);
    assert HitterPlusStats[6] == Headline;
    StatListsDistinct();
    res := Scaled(table, HitterPlusStats, Plus, sigma);
  }

  /** The batter dashboard's season table: hitters with at least 400 pitches,
      ordered by Hit Eff, five columns on the 20-80 scale. It stays in Hit
      Eff order after rescaling. */
  method BatterSeason(rows: seq<Row>, sigma: map<Stat, real>)
    returns (res: Result<seq<SeasonRow>, Error>)
    requires forall s | s in BatterScoutStats ::
      s in sigma && IsStdDev(TableColumn(SeasonTable(rows, BatterSeasonStats, BatterMinPitches, Headline), s), sigma[s])
    ensures var table := SeasonTable(rows, BatterSeasonStats, BatterMinPitches, Headline);
      && (res.Failure? <==> exists s | s in BatterScoutStats :: Degenerate(TableColumn(table, s), sigma[s]))
      && (res.Success? ==>
           && |res.value| == |table|
           && (forall i | 0 <= i < |table| :: RescaledRow(table, BatterScoutStats, TwentyEighty, sigma, i, res.value[i]))
           && SortedBy(res.value, Headline))
  {
    var table := SeasonTable(rows, BatterSeasonStats, BatterMinPitches, Headline);
    assert BatterScoutStats[4] == Headline;
    StatListsDistinct();
    res := Scaled(table, BatterScoutStats, TwentyEighty, sigma);
  }

  /** `Rescale` applied to a table sorted by the headline, which is one of
      the rescaled columns. */
  method Scaled(table: seq<SeasonRow>, stats: seq<Stat>, scale: Scale, sigma: map<Stat, real>)
    returns (res: Result<seq<SeasonRow>, Error>)
    requires NoDup(stats) && Headline in stats
    requires SortedBy(table, Headline)
    requires forall s | s in stats :: s in sigma && IsStdDev(TableColumn(table, s), sigma[s])
    ensures res.Failure? <==> exists s | s in stats :: Degenerate(TableColumn(table, s), sigma[s])
    ensures res.Success? ==>
      && |res.value| == |table|
      && (forall i | 0 <= i < |table| :: RescaledRow(table, stats, scale, sigma, i, res.value[i]))
      && SortedBy(res.value, Headline)
  {
    res := Rescale(table, stats, scale, sigma);
    if res.Success? && |table| > 0 {
      var col := TableColumn(table, Headline);
      assert !Degenerate(col, sigma[Headline]);
      PresentAll(col);
      assert sigma[Headline] > 0.0;
      forall i | 0 <= i < |res.value|
        ensures Cell(res.value[i], Headline) == Some(ScaledColumn(col, sigma[Headline], scale)[i] as real)
      {
        assert RescaledRow(table, stats, scale, sigma, i, res.value[i]);
      }
      RescaleKeepsOrder(table, Headline, sigma[Headline], scale, res.value);
    }
  }
}
