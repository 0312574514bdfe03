/**
 * The sync's fixed configuration: the subject squad and competition, the
 * hand-maintained match metadata table, the match ids derived from it and
 * the KPI codes requested for every match.
 */
module Config {
  import opened Wrappers

  const SquadId: int := 6375
  const CompetitionIterationId: int := 1608
  const CompetitionName: string := "A-League Men"
  const Season: string := "2025-26"
  const TeamName: string := "Brisbane Roar"
  const DataSource: string := "Impect Analysis API"

  /**
   * One row of the metadata table. Every field is optional because the
   * code reads each with `.get(field, default)`; an id missing from the
   * table reads as `NoMeta`.
   */
  datatype MetaEntry = MetaEntry(
    matchday: Option<int>,
    date: Option<string>,
    venue: Option<string>,
    goalsFor: Option<int>,
    goalsAgainst: Option<int>)

  const NoMeta: MetaEntry := MetaEntry(None, None, None, None, None)

  function Meta(matchday: int, date: string, venue: string, goalsFor: int, goalsAgainst: int): MetaEntry {
    MetaEntry(Some(matchday), Some(date), Some(venue), Some(goalsFor), Some(goalsAgainst))
  }

  /** Match id to its metadata, as scraped from the portal. */
  const MatchMeta: map<int, MetaEntry> := map[
    234078 := Meta(1, "2026-01-03", "home", 0, 3),
    234086 := Meta(3, "2026-01-06", "away", 1, 0),
    234093 := Meta(4, "2026-01-16", "away", 1, 2),
    234102 := Meta(5, "2025-10-26", "away", 2, 1),
    234106 := Meta(6, "2025-12-13", "away", 0, 0),
    234112 := Meta(7, "2026-01-24", "home", 2, 3),
    234120 := Meta(8, "2025-11-23", "away", 1, 1),
    234128 := Meta(10, "2025-11-09", "home", 3, 0),
    234147 := Meta(13, "2025-10-17", "home", 1, 0),
    234164 := Meta(16, "2025-11-28", "home", 1, 0),
    234175 := Meta(17, "2025-12-31", "away", 1, 2),
    234184 := Meta(19, "2026-01-31", "away", 4, 1),
    234194 := Meta(21, "2025-10-31", "home", 0, 0),
    234205 := Meta(22, "2025-12-07", "away", 0, 1),
    234209 := Meta(23, "2026-02-07", "home", 1, 2),
    234212 := Meta(24, "2026-01-09", "home", 0, 2),
    234223 := Meta(25, "2025-12-19", "away", 2, 1),
    234228 := Meta(26, "2026-02-14", "away", 1, 1)
  ]

  /** The keys of `MatchMeta` in ascending order (`sorted(MATCH_META.keys())`). */
  const MatchIds: seq<int> := [
    234078, 234086, 234093, 234102, 234106, 234112, 234120, 234128, 234147,
    234164, 234175, 234184, 234194, 234205, 234209, 234212, 234223, 234228
  ]

  /** The KPI codes requested for every match. */
  const MatchKpiCodes: seq<string> := [
    "pxtPosSum", "PACKING_NSXG", "PACKING_XG", "POSTSHOT_XG",
    "OFFENSIVE_PLAY_DZ", "OFFENSIVE_PLAY", "REMOVE_OPPONENTS_DZ", "REMOVE_OPPONENTS",
    "CRITICAL_BALL_LOSS_NUMBER", "REMOVE_TEAMMATES",
    "reversePlayRatio", "addOpponentsRatio", "offensivePlayPerRemovedTeammates",
    "addTeammatesRatio", "addTeammatesDefendersRatio", "removeOpponentsRatio",
    "OFFENSIVE_PLAY_DZ:opponent", "OFFENSIVE_PLAY:opponent",
    "ballPossessionRatio", "passRatio", "successfulPassesClean", "unsuccessfulPassesClean",
    "duelsRatio", "groundDuelsRatio", "WON_GROUND_DUELS",
    "aerialDuelsRatio", "WON_AERIAL_DUELS",
    "SHOT_AT_GOAL_NUMBER", "SHOT_AT_GOAL_NUMBER_ON_TARGET",
    "SECOND_BALL_WIN", "SECOND_BALL_WIN:opponent", "secondBallWinsPercent",
    "oppGkUnderPressurePercent", "meanPressureHeight", "meanPressureOppDef",
    "forcedHighPassesPercent", "meanPressureBtl"
  ]

  /** Strictly ascending. */
  predicate Ascending(s: seq<int>) {
    forall i, j :: 0 <= i < j < |s| ==> s[i] < s[j]
  }

  /**
   * `MatchIds` is what `sorted(MATCH_META.keys())` computes: strictly
   * ascending, and holding exactly the table's keys.
   */
  lemma MatchIdsAreSortedKeys()
    ensures Ascending(MatchIds)
    ensures forall id :: id in MatchIds <==> id in MatchMeta
  {
  }

  /** Each element is below the next one. */
  predicate StepsUp(s: seq<int>) {
    forall i :: 0 <= i < |s| - 1 ==> s[i] < s[i + 1]
  }

  /** Increasing from each element to the next is increasing between any two. */
  lemma {:induction false} StepsUpIsAscending(s: seq<int>)
    requires StepsUp(s)
    ensures Ascending(s)
    decreases |s|
  {
    if |s| > 1 {
      var init := s[..|s| - 1];
      assert StepsUp(init);
      StepsUpIsAscending(init);
      forall i | 0 <= i < |s| - 1 ensures s[i] < s[|s| - 1] {
        if i < |s| - 2 {
          assert init[i] < init[|s| - 2];
        }
      }
    }
  }

  /** Every row of the table is complete. */
  lemma MetaRowsComplete()
    ensures forall id :: id in MatchMeta ==>
      MatchMeta[id].matchday.Some? && MatchMeta[id].goalsFor.Some? && MatchMeta[id].goalsAgainst.Some?
  {
  }

  /** The matchdays along `MatchIds`. */
  function MatchdaysAlongIds(): (mds: seq<int>)
    ensures |mds| == |MatchIds|
    ensures forall i :: 0 <= i < |MatchIds| ==> MatchIds[i] in MatchMeta && mds[i] == MatchMeta[MatchIds[i]].matchday.value
  {
    MatchIdsAreSortedKeys();
    MetaRowsComplete();
    seq(|MatchIds|, i requires 0 <= i < |MatchIds| => MatchMeta[MatchIds[i]].matchday.value)
  }

  /**
   * Every row of the table is complete (restated from `MetaRowsComplete`
   * so that the matchdays below are defined), and along `MatchIds` the
   * matchdays strictly increase: ordering by match id is ordering by
   * matchday.
   */
  lemma MatchdaysFollowMatchIds()
    ensures forall id :: id in MatchMeta ==>
      MatchMeta[id].matchday.Some? && MatchMeta[id].goalsFor.Some? && MatchMeta[id].goalsAgainst.Some?
    ensures forall i, j :: 0 <= i < j < |MatchIds| ==>
      MatchIds[i] in MatchMeta && MatchIds[j] in MatchMeta &&
      MatchMeta[MatchIds[i]].matchday.value < MatchMeta[MatchIds[j]].matchday.value
  {
    MetaRowsComplete();
    var mds := MatchdaysAlongIds();
    assert mds == [1, 3, 4, 5, 6, 7, 8, 10, 13, 16, 17, 19, 21, 22, 23, 24, 25, 26];
    StepsUpIsAscending(mds);
  }
}
