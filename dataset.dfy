/**
 * The assembled dataset: identity and provenance, the kept matches in
 * order, the roster mapped to player records, and the season summary
 * folded from the kept matches.
 */
module Dataset {
  import opened Wrappers
  import opened Api
  import opened Config
  import opened Normalize

  datatype Player = Player(id: int, name: string, shortName: string, birthDate: string, height: Option<int>, preferredFoot: string)

  datatype Record = Record(wins: nat, draws: nat, losses: nat)

  datatype Summary = Summary(totalMatches: nat, record: Record, goalsFor: int, goalsAgainst: int)

  datatype Dataset = Dataset(
    team: string,
    teamId: int,
    season: string,
    competition: string,
    competitionIterationId: int,
    dataSource: string,
    lastSync: string,
    matches: seq<MatchEntry>,
    players: seq<Player>,
    summary: Summary)

  /** The player comprehension for one roster entry: `p["id"]` and `p["name"]` raise when absent. */
  function PlayerOf(p: RawPlayer): Result<Player, Error> {
    if p.id.None? then Err(MissingKey("id"))
    else if p.name.None? then Err(MissingKey("name"))
    else Ok(Player(p.id.value, p.name.value, p.shortName.GetOr(""), p.birthDate.GetOr(""), p.height, p.leg.GetOr("")))
  }

  /**
   * The roster as player records: one per roster entry, in roster order,
   * id and name copied and the optional fields defaulted; it raises
   * exactly when some entry has no id or no name.
   */
  function MapPlayers(roster: seq<RawPlayer>): (r: Result<seq<Player>, Error>)
    ensures r.Ok? <==> forall k :: 0 <= k < |roster| ==> roster[k].id.Some? && roster[k].name.Some?
    ensures r.Ok? ==> |r.value| == |roster| && forall k :: 0 <= k < |roster| ==>
      && r.value[k].id == roster[k].id.value
      && r.value[k].name == roster[k].name.value
      && r.value[k].shortName == roster[k].shortName.GetOr("")
      && r.value[k].birthDate == roster[k].birthDate.GetOr("")
      && r.value[k].height == roster[k].height
      && r.value[k].preferredFoot == roster[k].leg.GetOr("")
  {
    if roster == [] then Ok([])
    else
      assert forall k :: 1 <= k < |roster| ==> roster[1..][k - 1] == roster[k];
      match PlayerOf(roster[0])
      case Err(e) => Err(e)
      case Ok(p) =>
        match MapPlayers(roster[1..])
        case Err(e) => Err(e)
        case Ok(rest) => Ok([p] + rest)
  }

  function CountWins(ms: seq<MatchEntry>): nat {
    if ms == [] then 0 else (if ms[0].goalsFor > ms[0].goalsAgainst then 1 else 0) + CountWins(ms[1..])
  }

  function CountDraws(ms: seq<MatchEntry>): nat {
    if ms == [] then 0 else (if ms[0].goalsFor == ms[0].goalsAgainst then 1 else 0) + CountDraws(ms[1..])
  }

  function CountLosses(ms: seq<MatchEntry>): nat {
    if ms == [] then 0 else (if ms[0].goalsFor < ms[0].goalsAgainst then 1 else 0) + CountLosses(ms[1..])
  }

  function SumGoalsFor(ms: seq<MatchEntry>): int {
    if ms == [] then 0 else ms[0].goalsFor + SumGoalsFor(ms[1..])
  }

  function SumGoalsAgainst(ms: seq<MatchEntry>): int {
    if ms == [] then 0 else ms[0].goalsAgainst + SumGoalsAgainst(ms[1..])
  }

  /** The season summary, computed only from the match list. */
  function Summarize(ms: seq<MatchEntry>): (s: Summary)
    ensures s.totalMatches == |ms|
    ensures s.record.wins + s.record.draws + s.record.losses == |ms|
  {
    RecordAddsUpToTotal(ms);
    Summary(|ms|, Record(CountWins(ms), CountDraws(ms), CountLosses(ms)), SumGoalsFor(ms), SumGoalsAgainst(ms))
  }

  /** Every match is exactly one of a win, a draw and a loss, so the record adds up to the match count. */
  lemma {:induction false} RecordAddsUpToTotal(ms: seq<MatchEntry>)
    ensures CountWins(ms) + CountDraws(ms) + CountLosses(ms) == |ms|
  {
    if ms != [] {
      RecordAddsUpToTotal(ms[1..]);
    }
  }

  /**
   * The summary is a fold over the match list: appending one match adds
   * one to the total and to its outcome's count, and its goals to the sums.
   */
  lemma {:induction false} SummarizeAppend(ms: seq<MatchEntry>, m: MatchEntry)
    ensures var s, t := Summarize(ms), Summarize(ms + [m]);
      && t.totalMatches == s.totalMatches + 1
      && t.record.wins == s.record.wins + (if m.goalsFor > m.goalsAgainst then 1 else 0)
      && t.record.draws == s.record.draws + (if m.goalsFor == m.goalsAgainst then 1 else 0)
      && t.record.losses == s.record.losses + (if m.goalsFor < m.goalsAgainst then 1 else 0)
      && t.goalsFor == s.goalsFor + m.goalsFor
      && t.goalsAgainst == s.goalsAgainst + m.goalsAgainst
  {
    if ms != [] {
      assert (ms + [m])[1..] == ms[1..] + [m];
      SummarizeAppend(ms[1..], m);
    } else {
      assert ms + [m] == [m] && [m][1..] == [];
    }
  }

  /** The number of matches whose result string starts with `c`. */
  function CountResults(ms: seq<MatchEntry>, c: char): nat {
    if ms == [] then 0 else (if |ms[0].result| > 0 && ms[0].result[0] == c then 1 else 0) + CountResults(ms[1..], c)
  }

  /**
   * For entries built by the normaliser, the record agrees with the result
   * strings: wins, draws and losses count the results starting with W, D
   * and L.
   */
  lemma {:induction false} RecordMatchesResultStrings(ms: seq<MatchEntry>)
    requires forall k :: 0 <= k < |ms| ==> ConsistentEntry(ms[k])
    ensures Summarize(ms).record == Record(CountResults(ms, 'W'), CountResults(ms, 'D'), CountResults(ms, 'L'))
  {
    if ms != [] {
      assert forall k :: 1 <= k < |ms| ==> ms[1..][k - 1] == ms[k];
      RecordMatchesResultStrings(ms[1..]);
    }
  }

  /**
   * The dataset document: fixed identity and provenance, the matches, the
   * players (a roster entry without id or name raises), and the summary of
   * the matches. An empty match list still yields a dataset.
   */
  function Assemble(matches: seq<MatchEntry>, roster: seq<RawPlayer>, lastSync: string): (r: Result<Dataset, Error>)
    ensures r.Ok? <==> MapPlayers(roster).Ok?
    ensures r.Ok? ==> r.value.matches == matches && r.value.teamId == SquadId
    ensures r.Ok? ==> r.value.summary.totalMatches == |matches|
    ensures r.Ok? ==> r.value.summary.record.wins + r.value.summary.record.draws + r.value.summary.record.losses == |matches|
    ensures r.Ok? ==> r.value.summary == Summarize(matches) && r.value.players == MapPlayers(roster).value
  {
    RecordAddsUpToTotal(matches);
    match MapPlayers(roster)
    case Err(e) => Err(e)
    case Ok(players) =>
      Ok(Dataset(TeamName, SquadId, Season, CompetitionName, CompetitionIterationId, DataSource, lastSync,
                 matches, players, Summarize(matches)))
  }
}
