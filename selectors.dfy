/** The selector rules of the hitter dashboard's rolling charts: count
    groups, pitch-type buckets, pitcher and hitter handedness, the rolling
    metrics with their default windows, and the count-scaled pitch minimum
    (`updated_threshold`). */
module Selectors {
  import opened Numeric
  import opened Pitches

  // ---- Counts ---------------------------------------------------------------

  /** The twelve ball-strike counts, in the order the widget lists them. */
  const AllCounts: seq<string> :=
    ["0-0", "1-0", "2-0", "3-0", "0-1", "1-1", "2-1", "3-1", "0-2", "1-2", "2-2", "3-2"]

  /** The 'Count Group' radio; `Custom` carries the multiselect's choice. */
  datatype CountGroup = All | HitterFriendly | PitcherFriendly | Even | TwoStrike | ThreeBall | Custom(chosen: seq<string>)

  /** A count group is well formed: a custom choice is a duplicate-free
      selection from the twelve counts, as the multiselect allows. */
  predicate ValidGroup(g: CountGroup)
  {
    g.Custom? ==> NoDup(g.chosen) && forall i | 0 <= i < |g.chosen| :: g.chosen[i] in AllCounts
  }

  /** `selected_options`. */
  function SelectedCounts(g: CountGroup): (cs: seq<string>)
    requires ValidGroup(g)
    ensures NoDup(cs)
    ensures forall i | 0 <= i < |cs| :: cs[i] in AllCounts
  {
    match g
    case All => AllCounts
    case HitterFriendly => ["1-0", "2-0", "3-0", "2-1", "3-1"]
    case PitcherFriendly => ["0-1", "0-2", "1-2"]
    case Even => ["0-0", "1-1", "2-2"]
    case TwoStrike => ["0-2", "1-2", "2-2", "3-2"]
    case ThreeBall => ["3-0", "3-1", "3-2"]
    case Custom(chosen) => chosen
  }

  /** The twelve counts are exactly the strings `b-s` with at most three
      balls and two strikes. */
  lemma AllCountsAreCounts(c: string)
    ensures c in AllCounts <==> exists b: nat, s: nat | b <= 3 && s <= 2 :: c == CountString(b, s)
  {
    forall b: nat, s: nat | b <= 3 && s <= 2 ensures CountString(b, s) in AllCounts {
      CountStringShape(b, s);
    }
    if c in AllCounts {
      var k :| 0 <= k < 12 && AllCounts[k] == c;
      var b, s := k % 4, k / 4;
      CountStringShape(b, s);
      assert c == CountString(b, s);
    }
  }

  /** Which of the twelve counts each fixed group holds. */
  lemma CountGroupRules(b: nat, s: nat)
    requires b <= 3 && s <= 2
    ensures CountString(b, s) in SelectedCounts(PitcherFriendly) <==> s > b
    ensures CountString(b, s) in SelectedCounts(Even) <==> b == s
    ensures CountString(b, s) in SelectedCounts(TwoStrike) <==> s == 2
    ensures CountString(b, s) in SelectedCounts(ThreeBall) <==> b == 3
    ensures CountString(b, s) in SelectedCounts(HitterFriendly) <==> b > s && !(b == 3 && s == 2)
    ensures CountString(b, s) in SelectedCounts(All)
  {
    CountStringShape(b, s);
  }

  // ---- Pitch types and hands ------------------------------------------------

  /** The four pitch-type buckets of the season file. */
  const AllBuckets: seq<string> := ["Fastball", "Breaking Ball", "Offspeed", "Other"]

  /** `pitchtype_select` for the 'Vs Pitchtype' choice: all four buckets for
      'All', 'Offspeed' itself, otherwise the plural's last letter cut off
      (Python's `s[:-1]`, empty for an empty string). */
  function PitchTypeSelect(base: string): (r: seq<string>)
    ensures base == "All" ==> r == AllBuckets
    ensures base != "All" ==> |r| == 1
    ensures base != "All" && base != "Offspeed" && |base| > 0 ==> r[0] + [base[|base| - 1]] == base
  {
    if base == "All" then AllBuckets
    else if base == "Offspeed" then [base]
    else if |base| == 0 then [base]
    else [base[..|base| - 1]]
  }

  /** Each option of the widget selects buckets that exist. */
  lemma PitchTypeOptions()
    ensures PitchTypeSelect("Fastballs") == ["Fastball"]
    ensures PitchTypeSelect("Breaking Balls") == ["Breaking Ball"]
    ensures PitchTypeSelect("Offspeed") == ["Offspeed"]
    ensures forall base | base in ["All", "Fastballs", "Breaking Balls", "Offspeed"] ::
      forall i | 0 <= i < |PitchTypeSelect(base)| :: PitchTypeSelect(base)[i] in AllBuckets
  {
    assert "Fastballs"[..8] == "Fastball";
    assert "Breaking Balls"[..13] == "Breaking Ball";
  }

  /** The 'Pitcher Handedness' slider. */
  datatype Handedness = LeftHanded | Both | RightHanded

  /** `hand_map`: the pitcher hands a slider value admits. */
  function HandMap(h: Handedness): (hs: seq<Hand>)
    ensures L in hs <==> h != RightHanded
    ensures R in hs <==> h != LeftHanded
  {
    match h
    case LeftHanded => [L]
    case Both => [L, R]
    case RightHanded => [R]
  }

  /** The distinct batting hands of the player's rows, in order of first
      appearance (`unique()`). */
  function UniqueBatHands(rows: seq<Row>, player: string): (hs: seq<Hand>)
    ensures NoDup(hs)
    ensures forall x :: x in hs <==> exists i | 0 <= i < |rows| :: rows[i].p.hitter == player && rows[i].p.bHand == x
  {
    if rows == [] then []
    else
      var init := rows[..|rows| - 1];
      var prefix := UniqueBatHands(init, player);
      var last := rows[|rows| - 1];
      assert forall i | 0 <= i < |init| :: init[i] == rows[i];
      if last.p.hitter == player && last.p.bHand !in prefix then prefix + [last.p.bHand] else prefix
  }

  /** `hitter_hand`: both hands for 'All', otherwise the hands the player
      batted from. */
  function HitterHands(rows: seq<Row>, player: string, h: Handedness): (hs: seq<Hand>)
    ensures h == Both ==> hs == [L, R]
    ensures h != Both ==> forall x :: x in hs <==>
      exists i | 0 <= i < |rows| :: rows[i].p.hitter == player && rows[i].p.bHand == x
  {
    if h == Both then [L, R] else UniqueBatHands(rows, player)
  }

  // ---- Rolling metrics and thresholds ---------------------------------------

  /** The metrics a rolling chart can show (`stat_names`'s display names). */
  datatype RollingMetric = SwingAggression | StrikezoneJudgement | DecisionValueMetric | PitchHittability
                         | ContactAbility | Power | HitterPerformance

  function ColumnOf(m: RollingMetric): (c: Col)
  {
    match m
    case SwingAggression => SwingAgg
    case StrikezoneJudgement => SzJudge
    case DecisionValueMetric => DecisionValue
    case PitchHittability => InPlayInput
    case ContactAbility => ContactOE
    case Power => AdjPower
    case HitterPerformance => BatterWoba
  }

  /** The five metrics the batter dashboard's `stat_names` offers: it has no
      Pitch Hittability and no Hitter Performance. */
  predicate BatterMetric(m: RollingMetric)
  {
    m != PitchHittability && m != HitterPerformance
  }

  /** `rolling_threshold`: each metric's default window (the batter
      dashboard's table agrees on the five metrics it has). */
  function RollingThreshold(m: RollingMetric): (w: nat)
    ensures w >= 75 && w % 5 == 0
  {
    match m
    case SwingAggression => 400
    case StrikezoneJudgement => 400
    case DecisionValueMetric => 400
    case PitchHittability => 400
    case ContactAbility => 200
    case Power => 75
    case HitterPerformance => 800
  }

  /** `big_three`. */
  const BigThree: seq<RollingMetric> := [DecisionValueMetric, ContactAbility, Power]

  /** `stat_list`: the big three, plus the chosen metric when it is not one
      of them. */
  function StatList(m: RollingMetric): (l: seq<RollingMetric>)
    ensures m in l && NoDup(l)
    ensures forall x :: x in l <==> x in BigThree || x == m
  {
    if m in BigThree then BigThree else BigThree + [m]
  }

  /** `round(x / 5) * 5` for x >= 0: the multiple of 5 nearest to `x`, and on
      an exact tie the one whose quotient by 5 is even. */
  function FiveMultiple(x: real): (m: nat)
    requires x >= 0.0
    ensures m % 5 == 0
    ensures x - 2.5 <= m as real <= x + 2.5
    ensures x == m as real + 2.5 || x == m as real - 2.5 ==> (m / 5) % 2 == 0
  {
    var k := RoundHalfEven(x / 5.0);
    NearestMultipleOfFive(x, k);
    k * 5
  }

  /** Rounding `x / 5` to an integer `k` puts `5 * k` within 2.5 of `x`, and
      an exact tie goes to an even `k`. */
  lemma NearestMultipleOfFive(x: real, k: int)
    requires x >= 0.0 && k == RoundHalfEven(x / 5.0)
    ensures k >= 0
    ensures (5 * k) as real - 2.5 <= x <= (5 * k) as real + 2.5
    ensures x == (5 * k) as real + 2.5 || x == (5 * k) as real - 2.5 ==> k % 2 == 0
  {
    assert (k as real) - 0.5 <= x / 5.0 <= (k as real) + 0.5;
    if x == (5 * k) as real + 2.5 {
      assert x / 5.0 == (k as real) + 0.5;
    } else if x == (5 * k) as real - 2.5 {
      assert x / 5.0 == (k as real) - 0.5;
    }
  }

  /** `updated_threshold`: the metric's window scaled by the share of the
      twelve counts selected, rounded half-to-even to a multiple of 5, and
      cut to a third (truncated) for 2023. */
  function UpdatedThreshold(rt: nat, selected: nat, year: int): (t: nat)
    ensures t == if year == 2023 then FiveMultiple((rt * selected) as real / 12.0) / 3
                 else FiveMultiple((rt * selected) as real / 12.0)
    ensures year != 2023 ==>
      && t % 5 == 0
      && (rt * selected) as real / 12.0 - 2.5 <= t as real <= (rt * selected) as real / 12.0 + 2.5
    ensures year == 2023 ==>
      (3 * t) as real - 2.5 <= (rt * selected) as real / 12.0 <= (3 * t + 2) as real + 2.5
  {
    var m := FiveMultiple((rt * selected) as real / 12.0);
    if year == 2023 then m / 3 else m
  }

  /** A product of naturals grows with its second factor. */
  lemma ProductMonotone(rt: nat, n1: nat, n2: nat)
    requires n1 <= n2
    ensures rt * n1 <= rt * n2
  {
    assert rt * n2 - rt * n1 == rt * (n2 - n1);
  }

  /** Selecting more counts never lowers the pitch minimum. */
  lemma UpdatedThresholdMonotone(rt: nat, n1: nat, n2: nat, year: int)
    requires n1 <= n2
    ensures UpdatedThreshold(rt, n1, year) <= UpdatedThreshold(rt, n2, year)
  {
    ProductMonotone(rt, n1, n2);
    var x1 := (rt * n1) as real / 12.0 / 5.0;
    var x2 := (rt * n2) as real / 12.0 / 5.0;
    assert x1 <= x2;
    RoundHalfEvenMonotone(x1, x2);
    var k1, k2 := RoundHalfEven(x1), RoundHalfEven(x2);
    var g1: nat := if k1 < 0 then 0 else k1;
    var g2: nat := if k2 < 0 then 0 else k2;
    assert g1 * 5 <= g2 * 5;
    assert (g1 * 5) / 3 <= (g2 * 5) / 3;
  }

  /** With all twelve counts outside 2023 the minimum is the metric's own
      window; in 2023 it is a third of it, rounded down. */
  lemma UpdatedThresholdAllCounts(m: RollingMetric, year: int)
    ensures UpdatedThreshold(RollingThreshold(m), 12, year) ==
      if year == 2023 then RollingThreshold(m) / 3 else RollingThreshold(m)
  {
    var rt := RollingThreshold(m);
    var q := rt / 5;
    assert (rt * 12) as real / 12.0 / 5.0 == q as real;
    RoundHalfEvenOfInt(q);
  }

  /** Two of the source's own cases: the default (all counts, 'Decision
      Value', not 2023) and Power in two counts, where 75 * 2 / 60 = 2.5 is a
      tie that rounds to 2. */
  lemma UpdatedThresholdExamples()
    ensures UpdatedThreshold(400, 12, 2022) == 400
    ensures UpdatedThreshold(75, 2, 2022) == 10
    ensures UpdatedThreshold(800, 3, 2023) == 66
    ensures UpdatedThreshold(400, 3, 2023) == 33
  {
    RoundHalfEvenOfInt(80);
    RoundHalfEvenUnique(2.5, 2);
    RoundHalfEvenOfInt(40);
    RoundHalfEvenOfInt(20);
  }
}
