/**
 * One normalised match: the static metadata (with defaults), the computed
 * result string, the opponent's name, the metrics and the raw subject KPIs.
 */
module Normalize {
  import opened Wrappers
  import opened Api
  import opened Text
  import opened Config
  import opened Metrics
  import opened MatchKpis

  datatype MatchEntry = MatchEntry(
    matchId: int,
    matchday: int,
    date: string,
    venue: string,
    result: string,
    goalsFor: int,
    goalsAgainst: int,
    opponent: string,
    opponentSquadId: Option<int>,
    metrics: seq<MetricValue>,
    rawKpis: KpiMap)

  /** Why a match id does or does not reach the dataset. */
  datatype MatchOutcome =
    | Kept(entry: MatchEntry)
    | NoSubjectData        // the WARNING branch: the service had no entry for the subject squad
    | Failed(error: Error) // an exception, caught and printed by the batch loop

  function OutcomeLetter(goalsFor: int, goalsAgainst: int): char {
    if goalsFor > goalsAgainst then 'W' else if goalsFor < goalsAgainst then 'L' else 'D'
  }

  /** `f"{W|L|D} {gf}-{ga}"`: the result string computed from the score. */
  function ResultString(goalsFor: int, goalsAgainst: int): (s: string)
    ensures |s| >= 5 && s[1] == ' '
    ensures s[0] == 'W' <==> goalsFor > goalsAgainst
    ensures s[0] == 'L' <==> goalsFor < goalsAgainst
    ensures s[0] == 'D' <==> goalsFor == goalsAgainst
    ensures s[2..] == IntToString(goalsFor) + "-" + IntToString(goalsAgainst)
  {
    var score := IntToString(goalsFor) + "-" + IntToString(goalsAgainst);
    var s := [OutcomeLetter(goalsFor, goalsAgainst), ' '] + score;
    assert s[2..] == score;
    s
  }

  /**
   * Reads a result string back: the letter, then a space, then two
   * non-negative scores separated by a dash.
   */
  function ParseResult(s: string): Option<(char, nat, nat)> {
    if |s| < 2 || s[1] != ' ' then None
    else
      var score := s[2..];
      var k := LeadingDigits(score);
      if k == 0 || k == |score| || score[k] != '-' || !AllDigits(score[..k]) || !AllDigits(score[k + 1..]) then None
      else Some((s[0], ParseNat(score[..k]), ParseNat(score[k + 1..])))
  }

  /** The result string of a non-negative score is unambiguous: it reads back as the letter and both scores. */
  lemma ResultStringRoundTrip(goalsFor: nat, goalsAgainst: nat)
    ensures ParseResult(ResultString(goalsFor, goalsAgainst)) == Some((OutcomeLetter(goalsFor, goalsAgainst), goalsFor, goalsAgainst))
  {
    var s := ResultString(goalsFor, goalsAgainst);
    var f, a := NatToString(goalsFor), NatToString(goalsAgainst);
    assert IntToString(goalsFor) == f && IntToString(goalsAgainst) == a;
    var score := s[2..];
    assert score == f + ("-" + a);
    LeadingDigitsOfJoin(f, "-" + a);
    var k := |f|;
    assert score[..k] == f;
    assert score[k + 1..] == a;
    ParseNatInvertsNatToString(goalsFor);
    ParseNatInvertsNatToString(goalsAgainst);
  }

  /** `squad_names.get(opp_id, f"Squad {opp_id}")` */
  function OpponentName(names: map<int, string>, oppId: Option<int>): (n: string)
    ensures oppId.Some? && oppId.value in names ==> n == names[oppId.value]
    ensures oppId.Some? && oppId.value !in names ==>
      && |n| > 6 && n[..6] == "Squad "
      && (oppId.value >= 0 ==> AllDigits(n[6..]) && ParseNat(n[6..]) == oppId.value)
      && (oppId.value < 0 ==> n[6] == '-' && AllDigits(n[7..]) && ParseNat(n[7..]) == -oppId.value)
    ensures oppId.None? ==> n == "Squad None"
  {
    match oppId
    case Some(id) => if id in names then names[id] else "Squad " + IntToString(id)
    case None => "Squad None"
  }

  /** `MATCH_META.get(match_id, {})` */
  function MetaOf(meta: map<int, MetaEntry>, matchId: int): MetaEntry {
    if matchId in meta then meta[matchId] else NoMeta
  }

  /** The opponent's KPI map, or the empty map when the service had no opponent entry. */
  function OpponentKpis(split: MatchSplit): KpiMap {
    if split.opponent.Some? then split.opponent.value.kpis else map[]
  }

  /** The invariant every kept entry satisfies. */
  predicate ConsistentEntry(e: MatchEntry) {
    e.result == ResultString(e.goalsFor, e.goalsAgainst) && |e.metrics| == |MetricTable|
  }

  /**
   * The body of the batch loop after the fetch, for the match at position
   * `i` of the id list: no subject entry skips the match; otherwise the
   * entry is built from the metadata (matchday defaulting to i + 1, date
   * and venue to "", goals to 0), the opponent's name and the metrics,
   * and a null selected KPI fails the match.
   */
  function NormalizeMatch(i: nat, matchId: int, split: MatchSplit, names: map<int, string>, meta: map<int, MetaEntry>): (o: MatchOutcome)
    ensures o.NoSubjectData? <==> split.subject.None?
    ensures o.Failed? ==> o.error == NullMetric
    ensures o.Kept? ==> ConsistentEntry(o.entry) && o.entry.matchId == matchId
  {
    match split.subject
    case None => NoSubjectData
    case Some(br) =>
      var m := MetaOf(meta, matchId);
      var gf := m.goalsFor.GetOr(0);
      var ga := m.goalsAgainst.GetOr(0);
      match NormalizeMetrics(MetricTable, br.kpis, OpponentKpis(split))
      case Err(e) => Failed(e)
      case Ok(metrics) =>
        Kept(MatchEntry(
          matchId, m.matchday.GetOr(i + 1), m.date.GetOr(""), m.venue.GetOr(""),
          ResultString(gf, ga), gf, ga,
          OpponentName(names, br.opponentSquadId), br.opponentSquadId,
          metrics, br.kpis))
  }

  /**
   * The whole per-match step: a failed fetch or a malformed performance
   * list fails the match, otherwise the split is normalised.
   */
  function ProcessMatch(i: nat, matchId: int, response: FetchOutcome, names: map<int, string>, meta: map<int, MetaEntry>): (o: MatchOutcome)
    ensures response.Err? ==> o == Failed(response.error)
    ensures response.Ok? && o.Failed? ==> o.error in {MissingKey("squadId"), MissingKey("matchId"), NullMetric}
    ensures o.Kept? ==> ConsistentEntry(o.entry) && o.entry.matchId == matchId
  {
    match response
    case Err(e) => Failed(e)
    case Ok(perfs) =>
      SplitFailsOnlyOnMissingIds(perfs);
      match Split(perfs)
      case Err(e) => Failed(e)
      case Ok(split) => NormalizeMatch(i, matchId, split, names, meta)
  }

  /** No metric of the subject entry selects a null KPI value. */
  predicate MetricsDefined(split: MatchSplit) {
    split.subject.Some? ==> AllSelected(MetricTable, split.subject.value.kpis, OpponentKpis(split))
  }

  /** A split is kept exactly when it has a subject entry none of whose metrics selects a null KPI. */
  lemma NormalizeMatchKeptIff(i: nat, matchId: int, split: MatchSplit, names: map<int, string>, meta: map<int, MetaEntry>)
    ensures NormalizeMatch(i, matchId, split, names, meta).Kept? <==> split.subject.Some? && MetricsDefined(split)
  {
    if split.subject.Some? {
      NormalizeMetricsOkIff(MetricTable, split.subject.value.kpis, OpponentKpis(split));
    }
  }

  /**
   * A match is kept exactly when its fetch succeeded, every performance
   * entry carries its ids, some entry is the subject squad's, and no
   * metric selects a null KPI.
   */
  lemma ProcessMatchKeptIff(i: nat, matchId: int, response: FetchOutcome, names: map<int, string>, meta: map<int, MetaEntry>)
    ensures ProcessMatch(i, matchId, response, names, meta).Kept? <==>
      && response.Ok?
      && (forall j :: 0 <= j < |response.value| ==> WellFormed(response.value[j]))
      && (exists j :: 0 <= j < |response.value| && IsSubject(response.value[j]))
      && Split(response.value).Ok?
      && MetricsDefined(Split(response.value).value)
  {
    if response.Ok? {
      SplitFailsOnlyOnMissingIds(response.value);
      if Split(response.value).Ok? {
        var split := Split(response.value).value;
        SplitSlotFilledIff(response.value, true);
        NormalizeMatchKeptIff(i, matchId, split, names, meta);
      }
    }
  }

  /**
   * A kept entry copies the metadata with its defaults (matchday i + 1,
   * goals 0), keeps the subject's raw KPIs, and holds every metric as the
   * first present candidate key's value, or 0.
   */
  lemma KeptEntryContents(i: nat, matchId: int, split: MatchSplit, names: map<int, string>, meta: map<int, MetaEntry>)
    requires NormalizeMatch(i, matchId, split, names, meta).Kept?
    ensures split.subject.Some?
    ensures
      var e := NormalizeMatch(i, matchId, split, names, meta).entry;
      var m := MetaOf(meta, matchId);
      && e.matchday == m.matchday.GetOr(i + 1)
      && e.date == m.date.GetOr("")
      && e.venue == m.venue.GetOr("")
      && e.goalsFor == m.goalsFor.GetOr(0)
      && e.goalsAgainst == m.goalsAgainst.GetOr(0)
      && e.rawKpis == split.subject.value.kpis
      && e.opponentSquadId == split.subject.value.opponentSquadId
      && e.opponent == OpponentName(names, split.subject.value.opponentSquadId)
      && forall r :: 0 <= r < |MetricTable| ==>
           var v := SelectKpi(MetricTable[r].candidates, split.subject.value.kpis, OpponentKpis(split));
           v.Some? && e.metrics[r] == MetricValue(MetricTable[r].category, MetricTable[r].name, Metric(v.value, MetricTable[r].precision))
  {
  }
}
