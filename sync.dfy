/**
 * The end-to-end sync: resolve credentials from the arguments or the
 * environment, authenticate, build the dataset over the configured match
 * ids. Writing the document to disk is not part of this model.
 */
module Sync {
  import opened Wrappers
  import opened Api
  import opened Config
  import opened MatchKpis
  import opened Normalize
  import opened Dataset
  import opened Build

  /** `arg or os.environ.get(NAME)`: an empty or absent argument falls back to the environment. */
  function EffectiveCredential(arg: Option<string>, env: Option<string>): (c: Option<string>)
    ensures Given(arg) ==> c == arg
    ensures !Given(arg) ==> c == env
    ensures Given(c) <==> Given(arg) || Given(env)
  {
    if arg.Some? && arg.value != "" then arg else env
  }

  /** A credential that passes `not value`: present and non-empty. */
  predicate Given(c: Option<string>) {
    c.Some? && c.value != ""
  }

  /** A kept match takes its matchday from the metadata, or i + 1 when the table has none. */
  lemma KeptMatchday(b: Batch, j: nat)
    requires b.Valid() && j < |b.ids| && OutcomeAt(b, j).Kept?
    ensures OutcomeAt(b, j).entry.matchday == MetaOf(b.meta, b.ids[j]).matchday.GetOr(j + 1)
  {
    var split := Split(b.responses[j].value).value;
    KeptEntryContents(j, b.ids[j], split, b.names, b.meta);
  }

  /**
   * When every id has a matchday in the table and the matchdays increase
   * along the ids, the match list is in strictly ascending matchday order,
   * whichever matches were dropped.
   */
  lemma KeptMatchdaysAscend(b: Batch)
    requires b.Valid()
    requires forall i :: 0 <= i < |b.ids| ==> b.ids[i] in b.meta && b.meta[b.ids[i]].matchday.Some?
    requires forall i, j :: 0 <= i < j < |b.ids| ==> b.meta[b.ids[i]].matchday.value < b.meta[b.ids[j]].matchday.value
    ensures
      var ms := KeptEntries(Outcomes(b));
      forall k1, k2 :: 0 <= k1 < k2 < |ms| ==> ms[k1].matchday < ms[k2].matchday
  {
    var ms, idx := KeptEntries(Outcomes(b)), KeptPositions(Outcomes(b));
    CollectedIsOrderedSubsequence(b);
    forall k | 0 <= k < |ms|
      ensures ms[k].matchday == b.meta[b.ids[idx[k]]].matchday.value
    {
      KeptMatchday(b, idx[k]);
    }
  }

  /**
   * Over the configured ids and metadata table the match list is in
   * strictly ascending matchday order, whichever matches were dropped.
   */
  lemma SyncedMatchesAscendByMatchday(responses: seq<FetchOutcome>, names: map<int, string>)
    requires |responses| == |MatchIds|
    ensures
      var ms := KeptEntries(Outcomes(Batch(MatchIds, responses, names, MatchMeta)));
      forall k1, k2 :: 0 <= k1 < k2 < |ms| ==> ms[k1].matchday < ms[k2].matchday
  {
    MatchdaysFollowMatchIds();
    KeptMatchdaysAscend(Batch(MatchIds, responses, names, MatchMeta));
  }

  /**
   * `sync`: a missing username or password (after the environment
   * fallback) fails before any request; otherwise the password grant is
   * requested first, a failed grant ends the sync, and a successful one
   * leads to `build_match_data` over the configured match ids. The
   * resulting dataset's summary agrees with its matches, and the matches
   * are in ascending matchday order.
   */
  method Sync(username: Option<string>, password: Option<string>,
              envUsername: Option<string>, envPassword: Option<string>,
              up: Upstream, lastSync: string)
    returns (r: Result<Dataset, Error>, requests: seq<Request>)
    requires |up.performances| == |MatchIds|
    ensures
      var user, pass := EffectiveCredential(username, envUsername), EffectiveCredential(password, envPassword);
      && (!(Given(user) && Given(pass)) ==> r == Err(MissingCredentials) && requests == [])
      && (Given(user) && Given(pass) ==> |requests| > 0 && requests[0] == TokenRequest(user.value, pass.value))
      && (Given(user) && Given(pass) && up.token.Err? ==> r == Err(up.token.error) && |requests| == 1)
      && (Given(user) && Given(pass) && up.token.Ok? ==>
            && (up.squads.Err? ==> r == Err(up.squads.error))
            && (up.squads.Ok? && up.roster.Err? ==> r == Err(up.roster.error))
            && (up.squads.Ok? && up.roster.Ok? ==> (r.Ok? <==> MapPlayers(up.roster.value).Ok?)))
    ensures r.Ok? ==>
      && up.token.Ok? && up.squads.Ok? && up.roster.Ok?
      && requests[1..] == [SquadsRequest, PlayersRequest(SquadId)] + MatchRequests(MatchIds)
      && r.value.matches == KeptEntries(Outcomes(Batch(MatchIds, up.performances, up.squads.value, MatchMeta)))
    ensures r.Ok? ==>
      var s := r.value.summary;
      && s.totalMatches == |r.value.matches|
      && s.record.wins + s.record.draws + s.record.losses == s.totalMatches
      && s.goalsFor == SumGoalsFor(r.value.matches)
      && s.goalsAgainst == SumGoalsAgainst(r.value.matches)
      && (forall k1, k2 :: 0 <= k1 < k2 < |r.value.matches| ==> r.value.matches[k1].matchday < r.value.matches[k2].matchday)
    ensures r.Ok? ==> r.value.summary == Summarize(r.value.matches) && r.value.players == MapPlayers(up.roster.value).value
  {
    var user := EffectiveCredential(username, envUsername);
    var pass := EffectiveCredential(password, envPassword);
    if !Given(user) || !Given(pass) {
      return Err(MissingCredentials), [];
    }
    requests := [TokenRequest(user.value, pass.value)];
    if up.token.Err? {
      return Err(up.token.error), requests;
    }
    var built, buildRequests := BuildMatchData(up, MatchIds, MatchMeta, lastSync);
    requests := requests + buildRequests;
    r := built;
    if r.Ok? {
      SyncedMatchesAscendByMatchday(up.performances, up.squads.value);
      RecordAddsUpToTotal(r.value.matches);
    }
  }
}
