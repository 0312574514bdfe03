# ClubGPT Impect sync — a Dafny model

This project models the data-shaping core of the ClubGPT Impect sync
(`src/impect_sync.py`): the batch job that signs in to the Impect analysis
API, fetches per-match KPIs of the subject squad (Brisbane Roar, squad id
6375) and of its opponent, normalises each match into a fixed metric
schema, and assembles one dataset with roster and season summary.

The network is not modelled. What the service answers is an input
(`Api.Upstream`):

- the outcome of the password grant;
- the squad-name map;
- the roster;
- one fetch outcome per requested match id.

What the sync asks of the service is returned as a list of `Api.Request`
values. This makes "nothing is requested before the credential check" and
"every match id is requested, in order" statable.

Modules, leaf first:

- `Wrappers`: `Option` (None / missing key) and `Result` (a value or the exception raised).
- `Api`: the errors, the performance and roster records, the requests and the `Upstream` answers.
- `Config`: the squad and competition constants, the `MATCH_META` table, `MATCH_IDS` and the KPI code list.
- `Text`: Python's decimal rendering of integers and a parser that inverts it.
- `Metrics`: the metric schema as a table of candidate keys and precisions, first-present-key selection with default 0, and normalisation.
- `MatchKpis`: `get_match_kpis`, the split of a performance list into the subject and opponent entries. It is a loop method, proved against a left fold.
- `SeasonKpis`: `get_season_kpis`, the first subject-squad entry's KPIs. It is a loop with an early return.
- `Normalize`: the result string, the opponent name, metadata defaults, and the per-match step with its skip and failure paths.
- `Dataset`: the player mapping, the season summary and the assembled document.
- `Build`: the `build_match_data` loop, and the lemmas that its output is an ordered subsequence of the ids.
- `Sync`: the credential check and the orchestration.

Where the design description of the system and the code disagree, the model
follows the code:

- An empty match list still yields a dataset. The code has no zero-match
  consistency error (`src/impect_sync.py:276-309`).
- Matches come out in the order of the id list, not sorted by matchday. For
  the configured table the two orders coincide, which
  `Sync.SyncedMatchesAscendByMatchday` proves.
- The only fallback key chain is the one for the two opponent metrics. The
  opponent squad's key comes first, then the subject's `:opponent` key,
  then 0.
- The code has no process-wide throttle. It sleeps after each fetch that
  returned, and not after one that raised.

## Model

| member | source | states |
|---|---|---|
| `Config.MatchIdsAreSortedKeys` | src/impect_sync.py:28-49 | the match id list is strictly ascending and holds exactly the keys of the metadata table |
| `Config.MetaRowsComplete` | src/impect_sync.py:28-49 | every metadata row has a matchday and both goal counts |
| `Config.MatchdaysFollowMatchIds` | src/impect_sync.py:28-49 | every table row is complete, and matchdays strictly increase along the sorted id list |
| `Text.IntToString` | src/impect_sync.py:210 | `str(int)`: non-empty, a leading minus exactly for negatives; the digits (after the minus, if any) read back as the magnitude |
| `Text.ParseNatInvertsNatToString` | src/impect_sync.py:210 | the digits written for a non-negative integer read back as that integer |
| `Metrics.SelectKpi` | src/impect_sync.py:224-266 | the value is that of the first candidate key present (even if null); with no candidate present it is 0 |
| `Metrics.NormalizeMetrics` | src/impect_sync.py:222-268 | succeeds exactly when no metric selects a null KPI; then one value per schema row, in schema order, each the row's selected value at the row's precision; otherwise the null-round error |
| `Metrics.NormalizeMetricsOkIff` | src/impect_sync.py:222-268 | the metric dict is built exactly when every schema row selects a non-null KPI |
| `Metrics.MissingKpisDefaultToZero` | src/impect_sync.py:224-266 | with no candidate key present, normalisation succeeds and every metric is 0 |
| `Metrics.OpponentMetricPrecedence` | src/impect_sync.py:236-239 | both opponent metrics take the opponent squad's key, else the subject's `:opponent` key, else 0 |
| `Metrics.MetricsReadRequestedKpis` | src/impect_sync.py:52-72 | every KPI code the metric schema reads is among the codes requested per match |
| `MatchKpis.FlattenKpis` | src/impect_sync.py:141-143 | the flattened map has the same codes, each mapped to its `value` (possibly null) |
| `MatchKpis.GetMatchKpis` | src/impect_sync.py:136-156 | the loop's result equals the left-fold split: entries filed in order, later overwriting earlier, a missing id raising |
| `MatchKpis.SplitFailsOnlyOnMissingIds` | src/impect_sync.py:145-150 | the split raises exactly when some entry lacks `squadId` or `matchId`, and then with the missing-key error for one of the two |
| `MatchKpis.SplitSlotFilledIff` | src/impect_sync.py:139-156 | the subject slot is filled iff some entry has the subject squad id, and the opponent slot iff some entry has another squad id |
| `MatchKpis.SplitKeepsLastOfEachSide` | src/impect_sync.py:151-154 | the subject slot holds the last subject-squad entry, and the opponent slot the last entry of another squad |
| `MatchKpis.EmptyPerformancesSplitEmpty` | src/impect_sync.py:139 | an empty performance list leaves both slots null |
| `SeasonKpis.GetSeasonKpis` | src/impect_sync.py:173-178 | returns the flattened KPIs of the first subject-squad entry, or `{}` when there is none; entries without a squad id are skipped |
| `Normalize.ResultString` | src/impect_sync.py:207-210 | starts with W iff gf > ga, L iff gf < ga, D iff equal, then a space and `gf-ga` |
| `Normalize.ResultStringRoundTrip` | src/impect_sync.py:208-210 | for non-negative scores the result string reads back as its letter and both scores |
| `Normalize.OpponentName` | src/impect_sync.py:202-203 | the squad-name map's name for the opponent id; for an id not in the map `Squad ` followed by digits that read back as the id (after a minus for a negative id); `Squad None` without an id |
| `Normalize.NormalizeMatch` | src/impect_sync.py:196-271 | skipped iff no subject entry; failure only on a null KPI; a kept entry carries its id and a result string consistent with its goals |
| `Normalize.ProcessMatch` | src/impect_sync.py:192-274 | a fetch that raised fails the match with its own error; any other failure is a missing `squadId`/`matchId` key or a null metric; a kept entry carries its id and a result consistent with its goals |
| `Normalize.NormalizeMatchKeptIff` | src/impect_sync.py:199-271 | a split is kept exactly when it has a subject entry and no metric selects a null KPI |
| `Normalize.ProcessMatchKeptIff` | src/impect_sync.py:192-274 | a match is kept iff its fetch returned, every entry has its ids, some entry is the subject squad's, and no metric selects a null KPI |
| `Normalize.KeptEntryContents` | src/impect_sync.py:202-270 | a kept entry takes the metadata with defaults (matchday i+1, date and venue "", goals 0), the subject's raw KPIs and opponent id, the opponent name, and every metric from its first present key or 0 |
| `Dataset.MapPlayers` | src/impect_sync.py:286-296 | one player per roster entry, in order, with id and name copied, optional fields defaulted to "" and height kept; raises iff some entry lacks id or name |
| `Dataset.Summarize` | src/impect_sync.py:297-306 | the total is the match count, and wins, draws and losses add up to it |
| `Dataset.RecordAddsUpToTotal` | src/impect_sync.py:298-303 | wins + draws + losses equals the match count |
| `Dataset.SummarizeAppend` | src/impect_sync.py:297-306 | adding a match adds one to the total and to its outcome's count, and its goals to the sums |
| `Dataset.RecordMatchesResultStrings` | src/impect_sync.py:299-303 | for normalised entries, wins, draws and losses count the result strings starting with W, D and L |
| `Dataset.Assemble` | src/impect_sync.py:276-309 | the dataset holds the given matches and the subject squad id, its summary is the summary of those matches and its players the mapped roster, and it fails exactly when the player mapping does |
| `Build.MatchRequests` | src/impect_sync.py:190-193 | one performance request per id, in id order |
| `Build.KeptEntriesAtKeptPositions` | src/impect_sync.py:189-274 | the k-th output match is the entry kept at the k-th kept position |
| `Build.KeptPositionsAscending` | src/impect_sync.py:189-274 | kept positions strictly increase, and a position is kept iff its own outcome kept it |
| `Build.CollectedIsOrderedSubsequence` | src/impect_sync.py:189-274 | the match list is an order-preserving subsequence of the ids, and each id appears iff its own processing kept it, whatever failed elsewhere |
| `Build.KeptEntriesConsistent` | src/impect_sync.py:207-271 | every output match has a result string consistent with its goals and a full metric set |
| `Build.FetchAndNormalize` | src/impect_sync.py:194-274 | the per-match `try` block (fetch, split, normalise) computes the per-match outcome `ProcessMatch` specifies |
| `Build.CollectMatches` | src/impect_sync.py:189-274 | the batch loop requests every id in order and collects exactly the entries of the kept matches, in order |
| `Build.BuildMatchData` | src/impect_sync.py:181-309 | squad-name or roster failure ends the build; otherwise every id is requested in order and the dataset is assembled from exactly the kept entries |
| `Sync.EffectiveCredential` | src/impect_sync.py:314-315 | a non-empty argument wins, otherwise the environment value; the result is usable iff either one is |
| `Sync.KeptMatchday` | src/impect_sync.py:214 | a kept match's matchday is the table's, or its position + 1 |
| `Sync.KeptMatchdaysAscend` | src/impect_sync.py:189-274 | when the table gives every id a matchday and matchdays increase along the ids, the output matchdays strictly increase whichever matches are dropped |
| `Sync.SyncedMatchesAscendByMatchday` | src/impect_sync.py:28-49 | over the configured ids and table, output matchdays strictly increase whichever matches are dropped |
| `Sync.Sync` | src/impect_sync.py:312-340 | missing credentials after the environment fallback raise with no request made; the token request comes first; a failed grant, squad listing or roster ends the sync with that error; once those succeed the sync returns a dataset exactly when every roster entry maps, whatever the per-match fetches did; a dataset has every id requested, the summary of its matches, the mapped roster, and its matches in matchday order |

## Left out

- HTTP and authentication (`get_access_token`, `api_get`, `api_post`, `get_squad_names`, `get_players`) are thin wrappers over an HTTP library. Their results are inputs of the model.
- Requests do not carry the bearer token or headers. The model records which calls are made and in what order, not how they are authorised.
- The 150 ms `time.sleep` after each fetch is wall-clock behaviour and is not modelled.
- `datetime.now` is the `lastSync` parameter. Creating the directory and writing the JSON file are not modelled.
- Decimal rounding is not computed. A metric records its value and the precision `round` applies to it.
- Diagnostic `print` output is not modelled.
- JSON shapes are narrowed to what the code reads. KPI values are numbers or null. A missing `data`/`performances` envelope is the empty list. Roster fields are present or absent; a present null is not distinguished.
- Api.Performance: `squadId` and `matchId` are present with a value or absent; a key present with value null is not representable. In the code a null `squadId` does not raise: the entry is filed as the opponent's, and the match can still be kept. A null `matchId` is stored and never read. The model treats both as the absent key, which raises and fails the match.
- `get_season_kpis` is never called by the sync. It is modelled on its own, over the performance list, and its request body is not modelled.
- The per-match answers are a sequence with one element per requested id. `Build.BuildMatchData` and `Sync.Sync` require its length to match the id list.
- Normalize.ResultStringRoundTrip: stated for non-negative scores only. Goals are counts; the parser does not read a minus sign.
- src/api.py and src/query.py (the HTTP server and the LLM prompt layer) are not part of this model.
