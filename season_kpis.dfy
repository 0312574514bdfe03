/** The season-average KPIs of the subject squad, picked from the service's performance list. */
module SeasonKpis {
  import opened Wrappers
  import opened Api
  import Config
  import opened MatchKpis

  /**
   * `get_season_kpis` on the performance list the service returned: the
   * flattened KPI map of the first entry of the subject squad, or the
   * empty map when no entry is. An entry without a squad id is skipped
   * (the code reads it with `.get`), never an error.
   */
  method GetSeasonKpis(perfs: seq<Performance>) returns (r: KpiMap)
    ensures (forall j :: 0 <= j < |perfs| ==> !IsSubject(perfs[j])) ==> r == map[]
    ensures forall j ::
      && 0 <= j < |perfs|
      && IsSubject(perfs[j])
      && (forall k :: 0 <= k < j ==> !IsSubject(perfs[k]))
      ==> r == Flatten(perfs[j].kpisAndScores)
  {
    var i := 0;
    while i < |perfs|
      invariant 0 <= i <= |perfs|
      invariant forall k :: 0 <= k < i ==> !IsSubject(perfs[k])
    {
      if perfs[i].squadId == Some(Config.SquadId) {
        return Flatten(perfs[i].kpisAndScores);
      }
      i := i + 1;
    }
    return map[];
  }
}
