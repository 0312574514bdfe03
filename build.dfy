/**
 * The batch loop of the sync: every match id is fetched in order, each
 * failure is caught and drops only that match, and the dataset is
 * assembled from the matches that survived.
 */
module Build {
  import opened Wrappers
  import opened Api
  import opened Config
  import opened MatchKpis
  import opened Normalize
  import opened Dataset

  /** The per-match inputs of one batch: the ids, the answer to each id's fetch, the squad names, the metadata table. */
  datatype Batch = Batch(ids: seq<int>, responses: seq<FetchOutcome>, names: map<int, string>, meta: map<int, MetaEntry>) {
    predicate Valid() {
      |ids| == |responses|
    }
  }

  /** What happens to the match at position j. */
  function OutcomeAt(b: Batch, j: nat): MatchOutcome
    requires b.Valid() && j < |b.ids|
  {
    ProcessMatch(j, b.ids[j], b.responses[j], b.names, b.meta)
  }

  /** What happens to each match, in id order. */
  function Outcomes(b: Batch): (os: seq<MatchOutcome>)
    requires b.Valid()
    ensures |os| == |b.ids| && forall j :: 0 <= j < |b.ids| ==> os[j] == OutcomeAt(b, j)
  {
    seq(|b.ids|, j requires 0 <= j < |b.ids| => OutcomeAt(b, j))
  }

  /** The entries of the kept outcomes, in order: the `matches` list the loop appends to. */
  function KeptEntries(os: seq<MatchOutcome>): seq<MatchEntry> {
    if os == [] then []
    else KeptEntries(os[..|os| - 1]) + (if os[|os| - 1].Kept? then [os[|os| - 1].entry] else [])
  }

  /** The positions of the kept outcomes. */
  function KeptPositions(os: seq<MatchOutcome>): seq<nat> {
    if os == [] then []
    else KeptPositions(os[..|os| - 1]) + (if os[|os| - 1].Kept? then [|os| - 1] else [])
  }

  /** The kept entries correspond one to one, in order, to the kept positions. */
  lemma {:induction false} KeptEntriesAtKeptPositions(os: seq<MatchOutcome>)
    ensures |KeptEntries(os)| == |KeptPositions(os)|
    ensures forall k :: 0 <= k < |KeptPositions(os)| ==>
      KeptPositions(os)[k] < |os| && os[KeptPositions(os)[k]] == Kept(KeptEntries(os)[k])
    decreases |os|
  {
    if os != [] {
      var n := |os| - 1;
      KeptEntriesAtKeptPositions(os[..n]);
      assert forall j :: 0 <= j < n ==> os[..n][j] == os[j];
    }
  }

  /** The kept positions strictly increase, and a position is among them exactly when its outcome kept the match. */
  lemma {:induction false} KeptPositionsAscending(os: seq<MatchOutcome>)
    ensures forall k :: 0 <= k < |KeptPositions(os)| ==> KeptPositions(os)[k] < |os|
    ensures forall k1, k2 :: 0 <= k1 < k2 < |KeptPositions(os)| ==> KeptPositions(os)[k1] < KeptPositions(os)[k2]
    ensures forall j :: 0 <= j < |os| ==> (os[j].Kept? <==> j in KeptPositions(os))
    decreases |os|
  {
    if os != [] {
      var n := |os| - 1;
      KeptPositionsAscending(os[..n]);
      assert forall j :: 0 <= j < n ==> os[..n][j] == os[j];
    }
  }

  /**
   * The match list is an order-preserving subsequence of the ids: the k-th
   * match is the entry built for the id at the k-th kept position, the
   * kept positions strictly increase, and a position is kept exactly when
   * its own processing kept it, whatever happened at the other positions.
   */
  lemma CollectedIsOrderedSubsequence(b: Batch)
    requires b.Valid()
    ensures
      var ms, idx := KeptEntries(Outcomes(b)), KeptPositions(Outcomes(b));
      && |ms| == |idx|
      && (forall k :: 0 <= k < |idx| ==>
            idx[k] < |b.ids| && OutcomeAt(b, idx[k]) == Kept(ms[k]) && ms[k].matchId == b.ids[idx[k]])
      && (forall k1, k2 :: 0 <= k1 < k2 < |idx| ==> idx[k1] < idx[k2])
      && (forall j :: 0 <= j < |b.ids| ==> (OutcomeAt(b, j).Kept? <==> j in idx))
  {
    KeptEntriesAtKeptPositions(Outcomes(b));
    KeptPositionsAscending(Outcomes(b));
  }

  /** Every kept entry satisfies the entry invariant. */
  lemma {:induction false} KeptEntriesConsistent(b: Batch)
    requires b.Valid()
    ensures forall k :: 0 <= k < |KeptEntries(Outcomes(b))| ==> ConsistentEntry(KeptEntries(Outcomes(b))[k])
  {
    KeptEntriesAtKeptPositions(Outcomes(b));
  }

  /** The request for one match's KPIs. */
  function PerformanceRequest(matchId: int): Request {
    MatchPerformanceRequest(matchId, SquadId, CompetitionIterationId, MatchKpiCodes)
  }

  /** One performance request per id, in id order. */
  function MatchRequests(ids: seq<int>): (rs: seq<Request>)
    ensures |rs| == |ids| && forall k :: 0 <= k < |ids| ==> rs[k] == PerformanceRequest(ids[k])
  {
    seq(|ids|, k requires 0 <= k < |ids| => PerformanceRequest(ids[k]))
  }

  /**
   * The `try` block of the batch loop for the match at position `i`: a
   * fetch that raised fails the match, otherwise the performance list is
   * split and the split normalised.
   */
  method FetchAndNormalize(i: nat, matchId: int, response: FetchOutcome, names: map<int, string>, meta: map<int, MetaEntry>)
    returns (o: MatchOutcome)
    ensures o == ProcessMatch(i, matchId, response, names, meta)
  {
    if response.Err? {
      return Failed(response.error);
    }
    var split := GetMatchKpis(response.value);
    if split.Err? {
      return Failed(split.error);
    }
    o := NormalizeMatch(i, matchId, split.value, names, meta);
  }

  /**
   * The batch loop of `build_match_data`: every id is requested in order,
   * and the entries of the kept matches are collected in order.
   */
  method CollectMatches(matchIds: seq<int>, responses: seq<FetchOutcome>, names: map<int, string>, meta: map<int, MetaEntry>)
    returns (matches: seq<MatchEntry>, requests: seq<Request>)
    requires |responses| == |matchIds|
    ensures requests == MatchRequests(matchIds)
    ensures matches == KeptEntries(Outcomes(Batch(matchIds, responses, names, meta)))
  {
    ghost var os := Outcomes(Batch(matchIds, responses, names, meta));
    matches, requests := [], [];
    var i := 0;
    while i < |matchIds|
      invariant 0 <= i <= |matchIds|
      invariant matches == KeptEntries(os[..i])
      invariant requests == MatchRequests(matchIds[..i])
    {
      var matchId := matchIds[i];
      requests := requests + [PerformanceRequest(matchId)];
      assert MatchRequests(matchIds[..i + 1]) == MatchRequests(matchIds[..i]) + [PerformanceRequest(matchId)];
      assert os[..i + 1][..i] == os[..i];
      var outcome := FetchAndNormalize(i, matchId, responses[i], names, meta);
      assert outcome == os[i];
      if outcome.Kept? {
        matches := matches + [outcome.entry];
      }
      i := i + 1;
    }
    assert matchIds[..i] == matchIds && os[..i] == os;
  }

  /**
   * `build_match_data`: fetch the squad names and the roster (either may
   * raise, ending the build), then every match id in order, each failure
   * dropping only its own match, then assemble the dataset. The requests
   * made are returned beside the result.
   */
  method BuildMatchData(up: Upstream, matchIds: seq<int>, meta: map<int, MetaEntry>, lastSync: string)
    returns (r: Result<Dataset, Error>, requests: seq<Request>)
    requires |up.performances| == |matchIds|
    ensures up.squads.Err? ==> r == Err(up.squads.error) && requests == [SquadsRequest]
    ensures up.squads.Ok? && up.roster.Err? ==>
      r == Err(up.roster.error) && requests == [SquadsRequest, PlayersRequest(SquadId)]
    ensures up.squads.Ok? && up.roster.Ok? ==>
      && requests == [SquadsRequest, PlayersRequest(SquadId)] + MatchRequests(matchIds)
      && r == Assemble(KeptEntries(Outcomes(Batch(matchIds, up.performances, up.squads.value, meta))), up.roster.value, lastSync)
  {
    requests := [SquadsRequest];
    if up.squads.Err? {
      return Err(up.squads.error), requests;
    }
    var names := up.squads.value;
    requests := requests + [PlayersRequest(SquadId)];
    if up.roster.Err? {
      return Err(up.roster.error), requests;
    }
    var matches, matchRequests := CollectMatches(matchIds, up.performances, names, meta);
    requests := requests + matchRequests;
    r := Assemble(matches, up.roster.value, lastSync);
  }
}
