/** The per-pitch record both dashboards load, the columns the loader of
    PLV_Hitter_Metrics_test.py attaches to it, and the ball-strike count
    string. */
module Pitches {
  import opened Numeric

  datatype Hand = L | R

  /** The raw per-pitch metric columns, named after the season file's
      columns (`swing_agg`, `strike_zone_judgement`, `decision_value`,
      `contact_over_expected`, `adj_power`, `batter_wOBA`, `in_play_input`). */
  datatype Col = SwingAgg | SzJudge | DecisionValue | ContactOE | AdjPower | BatterWoba | InPlayInput

  /** One pitch as the season file holds it. Locations are in feet; `szZ`
      is the height relative to the middle of the batter's strike zone.
      `pitchType` is the detailed type used for the context key and
      `bucket` its coarse family ('Fastball', 'Breaking Ball', 'Offspeed' or
      'Other'), both as the file's strings. */
  datatype Pitch = Pitch(
    hitter: string,
    pHand: Hand,
    bHand: Hand,
    pitchId: int,
    balls: nat,
    strikes: nat,
    pitchType: string,
    bucket: string,
    px: Option<real>,
    pz: Option<real>,
    szZ: Option<real>,
    swingAgg: Option<real>,
    szJudge: Option<real>,
    decisionValue: Option<real>,
    contactOE: Option<real>,
    adjPower: Option<real>,
    batterWoba: Option<real>,
    inPlayInput: Option<real>)

  function Get(p: Pitch, c: Col): (v: Option<real>)
  {
    match c
    case SwingAgg => p.swingAgg
    case SzJudge => p.szJudge
    case DecisionValue => p.decisionValue
    case ContactOE => p.contactOE
    case AdjPower => p.adjPower
    case BatterWoba => p.batterWoba
    case InPlayInput => p.inPlayInput
  }

  /** Overwrites one metric cell; every other column of the pitch is kept. */
  function Set(p: Pitch, c: Col, v: Option<real>): (q: Pitch)
    ensures Get(q, c) == v
    ensures forall c' | c' != c :: Get(q, c') == Get(p, c')
    ensures SameContext(p, q)
  {
    match c
    case SwingAgg => p.(swingAgg := v)
    case SzJudge => p.(szJudge := v)
    case DecisionValue => p.(decisionValue := v)
    case ContactOE => p.(contactOE := v)
    case AdjPower => p.(adjPower := v)
    case BatterWoba => p.(batterWoba := v)
    case InPlayInput => p.(inPlayInput := v)
  }

  /** Two pitches agree on every column that is not a metric. */
  predicate SameContext(p: Pitch, q: Pitch)
  {
    && p.hitter == q.hitter && p.pHand == q.pHand && p.bHand == q.bHand
    && p.pitchId == q.pitchId && p.balls == q.balls && p.strikes == q.strikes
    && p.pitchType == q.pitchType && p.bucket == q.bucket
    && p.px == q.px && p.pz == q.pz && p.szZ == q.szZ
  }

  /** The columns `load_season_data` attaches to each pitch. */
  datatype Derived = Derived(
    kdeX: Option<real>,
    kdeZ: Option<real>,
    baseDecisionValue: Option<real>,
    basePower: Option<real>,
    saOa: Option<real>,
    dvOa: Option<real>,
    caOa: Option<real>,
    powOa: Option<real>,
    zone: int,
    dvZone: Option<real>,
    dvOutside: Option<real>,
    count: string,
    gameDate: Option<int>)

  /** A loaded pitch before any column is attached (the batter dashboard's
      rows stay like this). */
  const Underived := Derived(None, None, None, None, None, None, None, None, 1, None, None, "", None)

  datatype Row = Row(p: Pitch, d: Derived)

  function DigitChar(n: nat): (c: char)
    requires n < 10
  {
    ('0' as int + n) as char
  }

  /** Python's `str` of a non-negative integer. */
  function NatToString(n: nat): (s: string)
    ensures |s| >= 1
    ensures forall i | 0 <= i < |s| :: '0' <= s[i] <= '9'
  {
    if n < 10 then [DigitChar(n)] else NatToString(n / 10) + [DigitChar(n % 10)]
  }

  /** The `count` column: balls, a dash, strikes. */
  function CountString(balls: nat, strikes: nat): (s: string)
  {
    NatToString(balls) + "-" + NatToString(strikes)
  }

  /** For single-digit counts the string is digit, dash, digit, so different
      counts give different strings. */
  lemma CountStringShape(b: nat, s: nat)
    requires b < 10 && s < 10
    ensures CountString(b, s) == [DigitChar(b), '-', DigitChar(s)]
  {
  }

  lemma CountStringInjective(b1: nat, s1: nat, b2: nat, s2: nat)
    requires b1 < 10 && s1 < 10 && b2 < 10 && s2 < 10
    requires CountString(b1, s1) == CountString(b2, s2)
    ensures b1 == b2 && s1 == s2
  {
    CountStringShape(b1, s1);
    CountStringShape(b2, s2);
    assert CountString(b1, s1)[0] == CountString(b2, s2)[0];
    assert CountString(b1, s1)[2] == CountString(b2, s2)[2];
  }
}
