/**
 * The shapes exchanged with the remote analytics service. The HTTP calls
 * themselves are not modelled: what the service answers is an input
 * (`Upstream`), and what the sync asks of it is recorded as a `Request`.
 */
module Api {
  import opened Wrappers

  /** What a step of the sync can raise. */
  datatype Error =
    | MissingCredentials      // ValueError from sync: no username or no password
    | RequestFailed(status: int)  // raise_for_status, or a transport failure
    | MissingKey(key: string) // KeyError on a field the code indexes with []
    | NullMetric              // TypeError: round() applied to a null KPI value

  /** A KPI code mapped to its value, which the service may report as null. */
  type KpiMap = map<string, Option<real>>

  /** One entry of `kpisAndScores`: the `{value: ...}` object of a KPI code. */
  datatype KpiScore = KpiScore(value: Option<real>)

  /**
   * One element of `data.performances`. Fields the code reads with `.get`
   * or `[]` are optional here, so that a missing field can be modelled;
   * an absent `kpisAndScores` is the empty map (`perf.get(..., {})`).
   */
  datatype Performance = Performance(
    squadId: Option<int>,
    opponentSquadId: Option<int>,
    matchId: Option<int>,
    kpisAndScores: map<string, KpiScore>)

  /** One element of the squad roster as the service returns it. */
  datatype RawPlayer = RawPlayer(
    id: Option<int>,
    name: Option<string>,
    shortName: Option<string>,
    birthDate: Option<string>,
    height: Option<int>,
    leg: Option<string>)

  /** A call the sync makes to the service, in the order it makes them. */
  datatype Request =
    | TokenRequest(username: string, password: string)
    | SquadsRequest
    | PlayersRequest(squadId: int)
    | MatchPerformanceRequest(matchId: int, squadId: int, competitionIterationId: int, kpis: seq<string>)

  /** The answer to one per-match performance request. */
  type FetchOutcome = Result<seq<Performance>, Error>

  /**
   * Everything the service answers during one sync: the password grant, the
   * squad-name listing, the roster, and the i-th per-match request's answer
   * at index i of `performances`.
   */
  datatype Upstream = Upstream(
    token: Result<string, Error>,
    squads: Result<map<int, string>, Error>,
    roster: Result<seq<RawPlayer>, Error>,
    performances: seq<FetchOutcome>)
}
