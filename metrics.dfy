/**
 * The metric part of a normalised match: each output metric reads a KPI
 * from the subject squad's map (or, for the two opponent metrics, first
 * from the opponent squad's map and then from the subject's ":opponent"
 * key), defaults to 0 when no candidate key is present, and is rounded
 * to a fixed precision. A KPI present with a null value makes round()
 * raise, which drops the whole match.
 */
module Metrics {
  import opened Wrappers
  import opened Api
  import Config

  /** `round(x)` (to an integer) or `round(x, digits)`. */
  datatype Precision = Whole | Places(digits: nat)

  /** Where a candidate key is looked up. */
  datatype KpiSource = Subject(code: string) | Opponent(code: string)

  /** One output metric: its category and name, its candidate keys in precedence order, its precision. */
  datatype MetricSpec = MetricSpec(category: string, name: string, candidates: seq<KpiSource>, precision: Precision)

  /**
   * A metric value as the dataset holds it: `value` rounded to `precision`.
   * The decimal rounding itself is not computed by this model.
   */
  datatype Metric = Metric(value: real, precision: Precision)

  datatype MetricValue = MetricValue(category: string, name: string, metric: Metric)

  function Own(category: string, name: string, code: string, precision: Precision): MetricSpec {
    MetricSpec(category, name, [Subject(code)], precision)
  }

  /** The `metrics` object of a match, category by category, in output order. */
  const MetricTable: seq<MetricSpec> := [
    Own("expected_goals", "packing_xg", "PACKING_XG", Places(2)),
    Own("expected_goals", "shot_based_xg", "PACKING_NSXG", Places(2)),
    Own("expected_goals", "post_shot_xg", "POSTSHOT_XG", Places(2)),
    Own("expected_goals", "developed_goal_threat", "pxtPosSum", Places(2)),
    Own("buildup", "ball_progression", "OFFENSIVE_PLAY", Places(1)),
    Own("buildup", "breaking_opponent_defence", "OFFENSIVE_PLAY_DZ", Places(1)),
    Own("buildup", "defensive_ball_control", "REMOVE_TEAMMATES", Places(1)),
    Own("buildup", "critical_ball_loss", "CRITICAL_BALL_LOSS_NUMBER", Whole),
    Own("buildup", "offensive_interventions", "REMOVE_OPPONENTS", Places(1)),
    MetricSpec("opponent", "opponent_ball_progression",
      [Opponent("OFFENSIVE_PLAY"), Subject("OFFENSIVE_PLAY:opponent")], Places(1)),
    MetricSpec("opponent", "opponent_breaking_defence",
      [Opponent("OFFENSIVE_PLAY_DZ"), Subject("OFFENSIVE_PLAY_DZ:opponent")], Places(1)),
    Own("possession", "ball_possession_rate", "ballPossessionRatio", Places(3)),
    Own("possession", "passing_accuracy", "passRatio", Places(3)),
    Own("possession", "successful_passes", "successfulPassesClean", Whole),
    Own("possession", "unsuccessful_passes", "unsuccessfulPassesClean", Whole),
    Own("duels", "duel_rate", "duelsRatio", Places(3)),
    Own("duels", "ground_duel_success", "groundDuelsRatio", Places(3)),
    Own("duels", "aerial_duel_success", "aerialDuelsRatio", Places(3)),
    Own("shots", "total_shots", "SHOT_AT_GOAL_NUMBER", Whole),
    Own("shots", "shots_on_target", "SHOT_AT_GOAL_NUMBER_ON_TARGET", Whole),
    Own("pressing", "pressuring_gk_pct", "oppGkUnderPressurePercent", Places(2)),
    Own("pressing", "avg_pressure_height_m", "meanPressureHeight", Places(1)),
    Own("pressing", "avg_pressure_buildup", "meanPressureOppDef", Places(2)),
    Own("pressing", "forced_high_passes_pct", "forcedHighPassesPercent", Places(2)),
    Own("pressing", "avg_pressure_counter_press", "meanPressureBtl", Places(2)),
    Own("ratios", "reverse_play", "reversePlayRatio", Places(3)),
    Own("ratios", "add_opponents", "addOpponentsRatio", Places(3)),
    Own("ratios", "remove_opponents", "removeOpponentsRatio", Places(3)),
    Own("ratios", "offensive_per_removed_teammates", "offensivePlayPerRemovedTeammates", Places(3))
  ]

  predicate IsPresent(src: KpiSource, subject: KpiMap, opponent: KpiMap) {
    match src
    case Subject(code) => code in subject
    case Opponent(code) => code in opponent
  }

  function ValueAt(src: KpiSource, subject: KpiMap, opponent: KpiMap): Option<real>
    requires IsPresent(src, subject, opponent)
  {
    match src
    case Subject(code) => subject[code]
    case Opponent(code) => opponent[code]
  }

  /**
   * The nested `m.get(key, fallback)` lookup: the value of the first
   * candidate key that is present (possibly null), or 0 when none is.
   */
  function SelectKpi(candidates: seq<KpiSource>, subject: KpiMap, opponent: KpiMap): (v: Option<real>)
    ensures forall k ::
      && 0 <= k < |candidates|
      && IsPresent(candidates[k], subject, opponent)
      && (forall j :: 0 <= j < k ==> !IsPresent(candidates[j], subject, opponent))
      ==> v == ValueAt(candidates[k], subject, opponent)
    ensures (forall k :: 0 <= k < |candidates| ==> !IsPresent(candidates[k], subject, opponent)) ==> v == Some(0.0)
  {
    if candidates == [] then Some(0.0)
    else if IsPresent(candidates[0], subject, opponent) then ValueAt(candidates[0], subject, opponent)
    else
      assert forall k :: 1 <= k < |candidates| ==> candidates[1..][k - 1] == candidates[k];
      SelectKpi(candidates[1..], subject, opponent)
  }

  /** One metric, rounded: a null selected value raises. */
  function ResolveMetric(spec: MetricSpec, subject: KpiMap, opponent: KpiMap): Result<Metric, Error> {
    match SelectKpi(spec.candidates, subject, opponent)
    case None => Err(NullMetric)
    case Some(v) => Ok(Metric(v, spec.precision))
  }

  /**
   * Builds every metric of `table` in order. It succeeds exactly when no
   * metric selects a null value, and then holds one value per row, each
   * the row's resolved metric under the row's category and name.
   */
  function NormalizeMetrics(table: seq<MetricSpec>, subject: KpiMap, opponent: KpiMap): (r: Result<seq<MetricValue>, Error>)
    ensures r.Ok? <==> forall i :: 0 <= i < |table| ==> ResolveMetric(table[i], subject, opponent).Ok?
    ensures r.Err? ==> r.error == NullMetric
    ensures r.Ok? ==> |r.value| == |table| && forall i :: 0 <= i < |table| ==>
      r.value[i] == MetricValue(table[i].category, table[i].name, ResolveMetric(table[i], subject, opponent).value)
  {
    if table == [] then Ok([])
    else
      assert forall i :: 1 <= i < |table| ==> table[1..][i - 1] == table[i];
      match ResolveMetric(table[0], subject, opponent)
      case Err(e) => Err(e)
      case Ok(m) =>
        match NormalizeMetrics(table[1..], subject, opponent)
        case Err(e) => Err(e)
        case Ok(rest) => Ok([MetricValue(table[0].category, table[0].name, m)] + rest)
  }

  /** Every metric of `table` selects a non-null value. */
  predicate AllSelected(table: seq<MetricSpec>, subject: KpiMap, opponent: KpiMap) {
    forall r :: 0 <= r < |table| ==> SelectKpi(table[r].candidates, subject, opponent).Some?
  }

  /** Normalisation succeeds exactly when every metric selects a non-null value. */
  lemma NormalizeMetricsOkIff(table: seq<MetricSpec>, subject: KpiMap, opponent: KpiMap)
    ensures NormalizeMetrics(table, subject, opponent).Ok? <==> AllSelected(table, subject, opponent)
  {
    assert forall r :: 0 <= r < |table| ==>
      (ResolveMetric(table[r], subject, opponent).Ok? <==> SelectKpi(table[r].candidates, subject, opponent).Some?);
  }

  /** When no candidate key of any metric is present, every metric is 0 at its precision. */
  lemma MissingKpisDefaultToZero(table: seq<MetricSpec>, subject: KpiMap, opponent: KpiMap)
    requires forall i, k :: 0 <= i < |table| && 0 <= k < |table[i].candidates| ==>
      !IsPresent(table[i].candidates[k], subject, opponent)
    ensures NormalizeMetrics(table, subject, opponent).Ok?
    ensures forall i :: 0 <= i < |table| ==>
      NormalizeMetrics(table, subject, opponent).value[i].metric == Metric(0.0, table[i].precision)
  {
  }

  /**
   * The two opponent metrics: the opponent squad's own key first, then the
   * subject squad's ":opponent" key, then 0.
   */
  lemma OpponentMetricPrecedence(subject: KpiMap, opponent: KpiMap)
    ensures MetricTable[9].name == "opponent_ball_progression"
    ensures SelectKpi(MetricTable[9].candidates, subject, opponent) ==
      if "OFFENSIVE_PLAY" in opponent then opponent["OFFENSIVE_PLAY"]
      else if "OFFENSIVE_PLAY:opponent" in subject then subject["OFFENSIVE_PLAY:opponent"]
      else Some(0.0)
    ensures MetricTable[10].name == "opponent_breaking_defence"
    ensures SelectKpi(MetricTable[10].candidates, subject, opponent) ==
      if "OFFENSIVE_PLAY_DZ" in opponent then opponent["OFFENSIVE_PLAY_DZ"]
      else if "OFFENSIVE_PLAY_DZ:opponent" in subject then subject["OFFENSIVE_PLAY_DZ:opponent"]
      else Some(0.0)
  {
    assert MetricTable[9].candidates == [Opponent("OFFENSIVE_PLAY"), Subject("OFFENSIVE_PLAY:opponent")];
    assert MetricTable[10].candidates == [Opponent("OFFENSIVE_PLAY_DZ"), Subject("OFFENSIVE_PLAY_DZ:opponent")];
  }

  /** Every key a subject-squad metric reads is one of the KPI codes requested for the match. */
  lemma MetricsReadRequestedKpis()
    ensures forall i, k :: 0 <= i < |MetricTable| && 0 <= k < |MetricTable[i].candidates| ==>
      MetricTable[i].candidates[k].code in Config.MatchKpiCodes
  {
  }
}
