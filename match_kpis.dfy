/**
 * The per-match fetch result: the service's list of per-squad performance
 * entries is split into the subject squad's entry and the opponent's.
 */
module MatchKpis {
  import opened Wrappers
  import opened Api
  import Config

  /** A performance entry with its KPI object flattened to code -> value. */
  datatype SquadEntry = SquadEntry(squadId: int, opponentSquadId: Option<int>, matchId: int, kpis: KpiMap)

  /** The `{"brisbane": ..., "opponent": ...}` result of one match. */
  datatype MatchSplit = MatchSplit(subject: Option<SquadEntry>, opponent: Option<SquadEntry>)

  /** `{k: v.get("value") for k, v in kpisAndScores.items()}` */
  function Flatten(scores: map<string, KpiScore>): KpiMap {
    map k | k in scores :: scores[k].value
  }

  predicate IsSubject(p: Performance) {
    p.squadId == Some(Config.SquadId)
  }

  /** The entry built from one performance; `perf["squadId"]` and `perf["matchId"]` raise when absent. */
  function EntryOf(p: Performance): Result<SquadEntry, Error> {
    if p.squadId.None? then Err(MissingKey("squadId"))
    else if p.matchId.None? then Err(MissingKey("matchId"))
    else Ok(SquadEntry(p.squadId.value, p.opponentSquadId, p.matchId.value, Flatten(p.kpisAndScores)))
  }

  /** Files an entry under the subject squad or the opponent, overwriting what was there. */
  function File(acc: MatchSplit, e: SquadEntry): MatchSplit {
    if e.squadId == Config.SquadId then acc.(subject := Some(e)) else acc.(opponent := Some(e))
  }

  /** The split of a performance list, as a fold from the left that stops at the first error. */
  function Split(perfs: seq<Performance>): Result<MatchSplit, Error>
    decreases |perfs|
  {
    if perfs == [] then Ok(MatchSplit(None, None))
    else
      match Split(perfs[..|perfs| - 1])
      case Err(e) => Err(e)
      case Ok(acc) =>
        match EntryOf(perfs[|perfs| - 1])
        case Err(e) => Err(e)
        case Ok(e) => Ok(File(acc, e))
  }

  /** An error on a prefix is the error of the whole list. */
  lemma {:induction false} SplitErrorPersists(perfs: seq<Performance>, n: nat)
    requires n <= |perfs|
    requires Split(perfs[..n]).Err?
    ensures Split(perfs) == Split(perfs[..n])
    decreases |perfs| - n
  {
    if n < |perfs| {
      assert perfs[..n + 1][..n] == perfs[..n];
      SplitErrorPersists(perfs, n + 1);
    } else {
      assert perfs[..n] == perfs;
    }
  }

  /** The inner loop of the split: flattens a `kpisAndScores` object key by key. */
  method FlattenKpis(scores: map<string, KpiScore>) returns (values: KpiMap)
    ensures values.Keys == scores.Keys
    ensures forall k :: k in scores ==> values[k] == scores[k].value
  {
    values := map[];
    var todo := scores.Keys;
    while todo != {}
      invariant todo <= scores.Keys
      invariant values.Keys == scores.Keys - todo
      invariant forall k :: k in values ==> values[k] == scores[k].value
      decreases todo
    {
      var k :| k in todo;
      values := values[k := scores[k].value];
      todo := todo - {k};
    }
  }

  /**
   * `get_match_kpis` on the performance list the service returned: every
   * entry is flattened and filed, later entries overwriting earlier ones;
   * a missing `squadId` or `matchId` raises.
   */
  method GetMatchKpis(perfs: seq<Performance>) returns (r: Result<MatchSplit, Error>)
    ensures r == Split(perfs)
  {
    var result := MatchSplit(None, None);
    var i := 0;
    while i < |perfs|
      invariant 0 <= i <= |perfs|
      invariant Split(perfs[..i]) == Ok(result)
    {
      var perf := perfs[i];
      var kpiValues := FlattenKpis(perf.kpisAndScores);
      assert kpiValues == Flatten(perf.kpisAndScores);
      assert perfs[..i + 1][..i] == perfs[..i];
      if perf.squadId.None? {
        SplitErrorPersists(perfs, i + 1);
        return Err(MissingKey("squadId"));
      }
      if perf.matchId.None? {
        SplitErrorPersists(perfs, i + 1);
        return Err(MissingKey("matchId"));
      }
      var entry := SquadEntry(perf.squadId.value, perf.opponentSquadId, perf.matchId.value, kpiValues);
      if perf.squadId.value == Config.SquadId {
        result := result.(subject := Some(entry));
      } else {
        result := result.(opponent := Some(entry));
      }
      i := i + 1;
    }
    assert perfs[..i] == perfs;
    r := Ok(result);
  }

  predicate WellFormed(p: Performance) {
    p.squadId.Some? && p.matchId.Some?
  }

  /** The split raises exactly when some entry lacks its squad id or its match id. */
  lemma {:induction false} SplitFailsOnlyOnMissingIds(perfs: seq<Performance>)
    ensures Split(perfs).Ok? <==> forall j :: 0 <= j < |perfs| ==> WellFormed(perfs[j])
    ensures Split(perfs).Err? ==> Split(perfs).error in {MissingKey("squadId"), MissingKey("matchId")}
    decreases |perfs|
  {
    if perfs != [] {
      var n := |perfs| - 1;
      SplitFailsOnlyOnMissingIds(perfs[..n]);
      assert forall j :: 0 <= j < n ==> perfs[..n][j] == perfs[j];
    }
  }

  /** A successful split of a non-empty list is its prefix's split with the last entry filed. */
  lemma SplitUnfold(perfs: seq<Performance>) returns (acc: MatchSplit, e: SquadEntry)
    requires perfs != [] && Split(perfs).Ok?
    ensures Split(perfs[..|perfs| - 1]) == Ok(acc)
    ensures EntryOf(perfs[|perfs| - 1]) == Ok(e)
    ensures Split(perfs) == Ok(File(acc, e))
  {
    acc := Split(perfs[..|perfs| - 1]).value;
    e := EntryOf(perfs[|perfs| - 1]).value;
  }

  /** The slot of the split that entries of the subject squad (`side`) or of other squads (`!side`) go to. */
  function Slot(s: MatchSplit, side: bool): Option<SquadEntry> {
    if side then s.subject else s.opponent
  }

  /** Entry j is on `side`, and no later entry is. */
  predicate LastOnSide(perfs: seq<Performance>, j: int, side: bool)
    requires 0 <= j < |perfs|
  {
    IsSubject(perfs[j]) == side && forall k :: j < k < |perfs| ==> IsSubject(perfs[k]) != side
  }

  /** A slot stays empty while no entry belongs on its side. */
  lemma {:induction false} SplitSlotEmptyWithoutEntries(perfs: seq<Performance>, side: bool)
    requires Split(perfs).Ok?
    requires forall j :: 0 <= j < |perfs| ==> IsSubject(perfs[j]) != side
    ensures Slot(Split(perfs).value, side) == None
    decreases |perfs|
  {
    if perfs != [] {
      var n := |perfs| - 1;
      var acc, e := SplitUnfold(perfs);
      assert forall j :: 0 <= j < n ==> perfs[..n][j] == perfs[j];
      SplitSlotEmptyWithoutEntries(perfs[..n], side);
    }
  }

  /**
   * What a successful split holds: the subject slot is the last entry of
   * the subject squad and the opponent slot the last entry of any other
   * squad.
   */
  lemma {:induction false} SplitKeepsLastOfEachSide(perfs: seq<Performance>, side: bool, j: nat)
    requires Split(perfs).Ok?
    requires j < |perfs| && LastOnSide(perfs, j, side)
    ensures Slot(Split(perfs).value, side).Some?
    ensures EntryOf(perfs[j]) == Ok(Slot(Split(perfs).value, side).value)
    decreases |perfs|
  {
    var n := |perfs| - 1;
    var acc, e := SplitUnfold(perfs);
    if j < n {
      var init := perfs[..n];
      assert init[j] == perfs[j];
      assert IsSubject(perfs[n]) != side;
      assert LastOnSide(init, j, side) by {
        forall k | j < k < n ensures IsSubject(init[k]) != side {
          assert init[k] == perfs[k];
        }
      }
      SplitKeepsLastOfEachSide(init, side, j);
    }
  }

  /** A slot is filled exactly when some entry belongs on its side. */
  lemma {:induction false} SplitSlotFilledIff(perfs: seq<Performance>, side: bool)
    requires Split(perfs).Ok?
    ensures Slot(Split(perfs).value, side).Some? <==> exists j :: 0 <= j < |perfs| && IsSubject(perfs[j]) == side
    decreases |perfs|
  {
    if perfs != [] {
      var n := |perfs| - 1;
      var init := perfs[..n];
      var acc, e := SplitUnfold(perfs);
      SplitSlotFilledIff(init, side);
      if IsSubject(perfs[n]) != side {
        if exists j :: 0 <= j < |perfs| && IsSubject(perfs[j]) == side {
          var j :| 0 <= j < |perfs| && IsSubject(perfs[j]) == side;
          assert init[j] == perfs[j];
        }
        if exists j :: 0 <= j < n && IsSubject(init[j]) == side {
          var j :| 0 <= j < n && IsSubject(init[j]) == side;
          assert init[j] == perfs[j];
        }
      }
    }
  }

  /** Both slots are empty for an empty performance list. */
  lemma EmptyPerformancesSplitEmpty()
    ensures Split([]) == Ok(MatchSplit(None, None))
  {
  }
}
