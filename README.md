# AML case analysis — a verified model of the detection core

The system loads a bank's transaction extracts into SQLite, groups clients
into investigation cases (`casos`) and, for the transactions of one case,
runs a set of anti-money-laundering detectors on the pattern-analysis page.
This project models, in Dafny, the parts of that system that decide what an
analyst sees:

- the memo normaliser `limpiar_glosa` (`Memo`; the copy in `utils_backup.py`
  is the same function), and the comma-separated term
  lists an analyst types (`Memo.TermList`);
- the chunked bulk load `cargar_datos` of both `utils.py` and
  `utils_backup.py`: the chunks written, the progress reported, the commit or
  the rollback, and what the database keeps afterwards (`BulkLoad`);
- the parametrised case query `obtener_datos_caso` of both versions: the SQL
  text, its `?` placeholders, its bound values, and the rows it selects
  (`CaseQuery`, `QueryText`);
- the mirror-transaction graph `crear_grafo_coincidencias` of both versions:
  the outflow/inflow matches and the weighted directed graph built from them
  (`MirrorGraph`);
- the detectors of `app.py`: the top-10 ranking, false transporters, cash
  ratio by economic activity and micro-payments (`Aggregations`); disposable
  accounts (`Aggregations`); pass-through and bridge accounts (`DailyFlows`);
  operation bursts (`Bursts`); shared vendors and the text mining of outflow
  memos (`WordMining`).

`Common` holds the transaction record and small helpers; `Tables` holds the
table operations the detectors share (filter, `groupby`-sum, descending
stable sort, `head(n)`), with their specifications.

Where the code performs a loop that builds a list or a dictionary, the model
is a `method` with that loop, proved equal to a specification function; the
graph the matches are folded into is a class whose `edges` map each
`AddMatch` updates. The rest is functions over sequences, sets and maps,
with lemmas about them.

Modelling choices that a reader of the source should know:

- Amounts are non-negative reals; pandas `round(2)` and float rounding are not
  modelled.
- A date and time that `pd.to_datetime(..., errors='coerce')` parses is a
  timestamp in seconds; one it cannot parse is `None`. Dates of accounts are
  day numbers. Text dates compared by SQLite are compared byte-wise
  (`CaseQuery.TextLeq`).
- Failures during a load are an explicit `Fault` parameter that names the
  step that raises: the `cargas` insert, a missing `Glosa` column, a missing
  mapped column (which only `utils_backup.py` selects unconditionally), the
  insert of chunk `k`, or the commit. The load is modelled by the trace of
  events it produces (`Register`, `Insert` of a row slice, `Progress` of a
  value, `Commit`, `Rollback`), and the database by what a trace leaves
  committed (`BulkLoad.Run`). pandas' `to_sql` on a plain sqlite3 connection
  commits when it returns; `Run` takes that as a flag, so both the code's
  behaviour and the single transaction its rollback is written for are
  modelled.
- `groupby` keys are listed in order of first appearance; pandas lists them
  sorted. For tables that are sorted afterwards this changes only the order
  among lines with equal sort keys. For the tables that are not sorted
  afterwards (the false-transporter summary, app.py:407-411, and the
  pass-through and bridge pivots, app.py:804-809 and 947-952, which pandas
  orders by client, then date) no contract states the order of the lines.
- Choices a reader might not expect, all as the code does them: the
  pass-through test is the percentage `(1 - |I - E| / max(I, E)) * 100 > 80`
  (proved equal to `5 * |I - E| < max(I, E)`), not a ratio of the net flow;
  accounts closed before they were opened are listed, not discarded; the
  burst detector tries every start position of a client and then drops
  duplicate reports, rather than skipping past a reported window.

## Model

| member | source | states |
|---|---|---|
| Memo.Normalize | utils.py:18-25 | a null memo gives `""`; any other gives upper-case words without digits or punctuation, separated by single blanks, with no leading or trailing blank |
| Memo.NormalizeKeeps | utils.py:18-25 | the non-blank characters of a cleaned memo are exactly the memo's word characters other than digits, upper-cased, in their order |
| Memo.NormalizeIdempotent | utils.py:18-25 | cleaning an already cleaned memo changes nothing |
| Memo.SplitJoin | utils.py:24 | splitting words joined by single blanks gives back the same words |
| Memo.JoinSplit | utils.py:24 | splitting then joining a single-spaced text gives back the text |
| Memo.StripDigits | utils.py:22 | a character is in the result exactly when it is a non-digit character of the input |
| Memo.StripDigitsConcat | utils.py:22 | removing digits works piece by piece, so the kept characters stay in their order |
| Memo.PunctToSpace | utils.py:23 | the result has the input's length and holds only word characters and spaces: each punctuation character becomes a blank in its place, every other character is kept there |
| Memo.SplitOnRoundTrip | app.py:391 | splitting a term list on commas loses nothing: re-joining with commas gives the text back |
| Memo.TermList | app.py:391 | one term per comma-separated piece, in order; no term starts or ends with a blank, holds a lower-case letter or a comma |
| Memo.TermCount | app.py:391 | a text with `k` commas gives `k + 1` terms |
| BulkLoad.LoadData | utils.py:27-93 | the load's events are those of the specification trace, and it returns an id exactly when no step fails; a missing mapped column other than `Glosa` is not a failure there |
| BulkLoad.ChunksPartition | utils.py:74-81 | the chunks of `n` rows are non-empty, consecutive, start at row 0 and end at row `n`; there are none for 0 rows |
| BulkLoad.ChunksCoverRows | utils.py:78-81 | every row lies in exactly one chunk, chunk `row / size` |
| BulkLoad.ChunkCount | utils.py:76 | chunk `i` exists exactly when `i * size < n` |
| BulkLoad.UtilsTraceWrites | utils.py:78-86 | the rows written before the load stops are the first chunks, in order; the progress values are `(i + 1) / num_chunks` for those chunks when a callback is given, and none otherwise |
| BulkLoad.UtilsTraceOutcome | utils.py:88-93 | the load ends with a commit exactly when no step fails, and otherwise with a rollback and no commit |
| BulkLoad.RunBody | utils.py:83 | a run of chunk writes adds its slices, in order, to the open transaction, and commits them and everything pending when `to_sql` commits per call |
| BulkLoad.UtilsStored | utils.py:28-93 | as run on sqlite3, a load keeps its `cargas` row and the chunks written before the failing step unless no chunk was written; a successful load keeps the row and every chunk |
| BulkLoad.UtilsAtomicStored | utils.py:28-93 | in one transaction, a load keeps its `cargas` row and every chunk when no step fails, and nothing when one does |
| BulkLoad.PartialLoadSurvives | utils.py:83-92 | a load of 10000 rows whose second chunk fails ends in a rollback, yet keeps the `cargas` row and rows 0 to 4999 |
| BulkLoad.UtilsProgressIncreasing | utils.py:85-86 | the reported progress strictly increases, stays in (0, 1], and the last chunk reports 1 |
| BulkLoad.UtilsProgress | utils.py:86 | the `i`-th report is `(i + 1) / num_chunks` |
| BulkLoad.LoadDataBackup | utils_backup.py:25-110 | the backup load's events are those of its specification trace, including a rollback after the 0.2 report when `Glosa` is missing and after the 0.4 report when a mapped column is missing, and it returns an id exactly when no step fails |
| BulkLoad.InsertChunks | utils_backup.py:89-96 | the loop appends, chunk by chunk, the insert of the chunk and the capped progress report, and stops at the failing chunk |
| BulkLoad.LoopReport | utils_backup.py:94-95 | the value reported after a chunk lies above 0.6 and at most 0.95 |
| BulkLoad.BackupCountIsCeiling | utils_backup.py:86-87 | `n // size + (1 if n % size else 0)` is the ceiling of `n / size`, the same chunk count as utils.py |
| BulkLoad.BackupProgressRange | utils_backup.py:94-95 | the loop's reports lie in (0.6, 0.95] and never decrease |
| BulkLoad.BackupInserts | utils_backup.py:89-91 | the backup load writes the same consecutive chunks as utils.py, in order, up to the failing one |
| BulkLoad.BackupProgressMonotone | utils_backup.py:30-104 | the callback never hears a smaller value than one it heard before |
| BulkLoad.BackupCompletionAfterCommit | utils_backup.py:101-104 | completion (1.0) is reported only after the commit |
| BulkLoad.BackupOutcome | utils_backup.py:101-110 | the backup load ends with a commit exactly when no step fails, and otherwise with a rollback and no commit |
| BulkLoad.BackupStored | utils_backup.py:29-110 | as run on sqlite3, a backup load keeps its `cargas` row and the chunks written before the failing step unless no chunk was written; a successful load keeps the row and every chunk |
| BulkLoad.BackupAtomicStored | utils_backup.py:29-110 | in one transaction, a backup load keeps everything when no step fails, and nothing when one does |
| BulkLoad.BackupReports | utils_backup.py:93-96 | the chunk loop reports exactly its computed values, in order, when a callback is given, and nothing otherwise |
| CaseQuery.BuildCaseQuery | utils.py:95-131 | the first bound value is `int(id_caso)`, the query has exactly as many `?` as bound values, and the query and values are the base query followed by the active filter clauses |
| CaseQuery.BuildCaseQueryBackup | utils_backup.py:112-148 | the same, with `id_caso` bound exactly as passed |
| CaseQuery.Members | utils.py:96-100 | a BLOB binding selects no member; an INTEGER binding selects exactly the clients linked to that id |
| CaseQuery.BackupIdSelectsNothing | utils_backup.py:120 | a numpy id, bound unchanged, selects no member, so the case has no rows whatever the links and filters |
| CaseQuery.CoercedIdSelectsCase | utils.py:102 | an id coerced to `int` selects exactly the clients linked to that case |
| CaseQuery.AppendFilters | utils.py:104-128 | the filter block appends the text and the values of the active clauses, in the order the builder checks the filters |
| CaseQuery.ClauseRules | utils.py:104-128 | currency and document type restrict exactly when set, non-empty and not `AMBOS`; amount bounds exactly when not None; dates exactly when non-empty |
| CaseQuery.ClauseOrder | utils.py:104-128 | the clauses always come in the order currency, document type, minimum amount, maximum amount, from date, to date, each at most once |
| CaseQuery.ClausesMeanScope | utils.py:104-128 | a row passes all the appended clauses exactly when it lies inside every filter the analyst set |
| CaseQuery.ClausesPlaceholders | utils.py:106-127 | every appended clause carries exactly one placeholder |
| CaseQuery.BaseHasOnePlaceholder | utils.py:96-100 | the base query carries exactly one placeholder, for the case id |
| CaseQuery.BackupBaseHasOnePlaceholder | utils_backup.py:113-118 | the backup base query carries exactly one placeholder |
| CaseQuery.CaseRows | utils.py:96-100 | the rows of a case are exactly the transactions of its linked clients that lie inside the filters, each kept exactly as many times as it occurs in the table |
| MirrorGraph.FindMatches | utils.py:133-164 | the matches are those of the specification, outflows in order and, for each, inflows in order |
| MirrorGraph.MatchOutflow | utils.py:153-164 | the inner loop yields the matches of one outflow, in inflow order |
| MirrorGraph.AllMatchesSpec | utils.py:152-164 | a match is produced exactly for an outflow and an inflow of different clients whose amounts differ by less than 0.01 and whose times are at most the tolerance apart, with their 8-character prefixes, the outflow's amount and the gap in hours |
| MirrorGraph.MatchesFromParsedRows | utils.py:134-148 | every match comes from an outflow and an inflow of the case whose date and time parse |
| MirrorGraph.EdgeKeys | utils.py:171-178 | the graph has exactly one edge per origin/destination prefix pair that some match connects |
| MirrorGraph.EdgeValues | utils.py:173-178 | an edge's weight is its number of matches and its `monto_total` their summed amount |
| MirrorGraph.EdgeWeightsPositive | utils.py:178 | every edge carries at least one match |
| MirrorGraph.MatchGraph.constructor | utils.py:171 | a new graph has no edges |
| MirrorGraph.MatchGraph.AddMatch | utils.py:174-178 | the match's edge is created with weight 1 or bumped; every other edge is unchanged |
| MirrorGraph.FoldMatches | utils.py:171-178 | folding the matches in order gives the edge table of the specification |
| MirrorGraph.BuildGraph | utils.py:133-178 | no graph exactly when there is no match; otherwise a new graph holding the edge table of the matches |
| MirrorGraph.SharedPrefixSelfLoop | utils.py:154-160 | two different clients whose ids share their first eight characters produce a self-loop on that prefix |
| MirrorGraph.BuildGraphBackup | utils_backup.py:150-185 | when every outflow and inflow parses, the backup builds the same matches and graph; otherwise it fails and builds nothing |
| MirrorGraph.BackupSelectsSameRows | utils_backup.py:151-155 | when every date parses, the backup's direction masks select exactly the rows utils.py keeps |
| Aggregations.TopLine | app.py:356-368 | a line of the top-10 table is a group of the column, with its total, its operation count, its `Monto Soles` (the sum over the group's `SOLES` rows) and its `Monto Dólares` (the sum over its `DOLARES` rows) |
| Aggregations.Top10Groups | app.py:356-368 | every line of the table at once: each is a group of the column with its total, operation count, `Monto Soles` and `Monto Dólares` as above |
| Aggregations.Top10Ranked | app.py:362 | the table holds min(10, number of groups) lines, ranked by total |
| Aggregations.Top10Complete | app.py:362 | a group left out of the table totals no more than any group kept |
| Aggregations.Top10Distinct | app.py:356-362 | no key appears on two lines |
| Aggregations.Top10Currencies | app.py:364-368 | soles and dollars together are at most the total, and each is 0 when the group has no operation in that currency |
| Aggregations.CashRows | app.py:471 | the cash rows (`RETIRO`, `DEPOSITO`, `DISP EFECTIVO`) of the case, each kept exactly as many times as it occurs, and no other row |
| Aggregations.TransportSuspects | app.py:393-402 | a row is suspect exactly when it is an outflow of a client declaring transport or construction whose memo contains a keyword, and each suspect row is kept exactly as many times as it occurs |
| Aggregations.FalseTransportersShown | app.py:402-407 | the summary is shown exactly when some row is suspect |
| Aggregations.FalseTransportersSummary | app.py:407-411 | each line is one declared activity with the summed amount and the number of distinct clients of its suspects, and every suspect's activity has a line |
| Aggregations.TrailingCommaMatchesAll | app.py:391-399 | a keyword list typed with a trailing comma holds the empty keyword, which every memo contains |
| Aggregations.Percent | app.py:486 | the percentage is undefined exactly when the whole is 0 |
| Aggregations.PercentRange | app.py:486 | a share of a non-zero whole is between 0 and 100 |
| Aggregations.CashRatioRows | app.py:471-486 | every line carries its activity's total, operation count, cash amount and cash operation count; the cash is at most the total and is 0 for an activity without cash operations; the percentage is cash / total * 100, in [0, 100], and undefined exactly for a zero total |
| Aggregations.CashRatioCovers | app.py:473-485 | there is a line exactly for each activity of the case |
| Aggregations.CashRatioDistinct | app.py:473-485 | no activity has two lines |
| Aggregations.CashRatioSorted | app.py:487 | the table is ranked by cash percentage, with undefined percentages last |
| Aggregations.Digital | app.py:550-553 | the Yape and Plin payments below the cap, each kept exactly as many times as it occurs, and no other row |
| Aggregations.MicroPaymentsRows | app.py:551-568 | each line is a client with more than 50 digital payments below the cap, with their count and sum; lines are ranked by count, distinct, and at most 20 |
| Aggregations.MicroPaymentsComplete | app.py:562-568 | a qualifying client is missing only when 20 lines with at least as many payments are shown |
| Aggregations.FirstDate | app.py:750-752 | the date of the client's first row, in row order, whose date is not null, or none exactly when all are null |
| Aggregations.MonthsBound | app.py:762-765 | `days / 30 <= months` is the whole-day test `days <= 30 * months` |
| Aggregations.DisposableSpec | app.py:750-765 | an account is listed exactly when its client's first close date is known and lies within the month limit of its first open date |
| Aggregations.DisposableRanked | app.py:773 | the listing is ranked by total and holds no client twice |
| Aggregations.ClosedBeforeOpened | app.py:762-765 | an account closed before it was opened is listed, not discarded |
| DailyFlows.Leg | app.py:800-808 | the amount moved by a client on a day in one direction is non-negative, and 0 when there is none |
| DailyFlows.PivotSpec | app.py:798-809 | the pivot has one line per client and day of the case, holding that day's inflow and outflow sums |
| DailyFlows.PassThrough | app.py:811 | there is no result exactly when the pivot lacks an inflow or outflow column |
| DailyFlows.PassThroughRule | app.py:812-818 | the percentage test is `I > 1000` and `5 * |I - E| < max(I, E)` |
| DailyFlows.PassThroughExamples | app.py:812-818 | 2000 in and 1900 out is flagged; 500 in and 490 out, and 2000 in and nothing out, are not |
| DailyFlows.PassThroughSpec | app.py:798-819 | a client-day is reported exactly when it occurs in the case and passes the test, and none twice |
| DailyFlows.BridgeRows | app.py:941 | the transfer and cheque rows of the case, each kept exactly as many times as it occurs, and no other row |
| DailyFlows.BridgeSpec | app.py:939-961 | a client-day is reported exactly when it has transfer or cheque rows, a daily balance below 100 in absolute value and a volume above 5000, and none twice |
| DailyFlows.Bridge | app.py:954 | there is no result exactly when the pivot of the transfer and cheque rows lacks a column |
| DailyFlows.BridgeIgnoresOtherGroups | app.py:941 | rows of any other operation group do not change the result |
| DailyFlows.BridgeExamples | app.py:955-960 | 3000 in and 2950 out is a bridge day; 3000 in and 2800 out, and a 3990 volume, are not |
| Bursts.Qualifying | app.py:1040-1054 | the qualifying operations are those below the cap, on a watched channel, whose date and time parse, in time order, each kept exactly as many times as it occurs in the case |
| Bursts.OwnOps | app.py:1059 | one client's operations, each kept exactly as many times as it occurs, and no other |
| Bursts.ScanClient | app.py:1059-1076 | trying every start position of a client gives the client's reports of the specification |
| Bursts.ScanClients | app.py:1058-1076 | the loop over clients gives the reports of every client, in order |
| Bursts.DetectBursts | app.py:1040-1082 | the detector returns the table of the specification |
| Bursts.BurstTableSpec | app.py:1058-1082 | a window is reported exactly when some qualifying operation opens it and it holds ten or more of that client's operations; no report twice; largest windows first |
| Bursts.BurstReports | app.py:1070-1076 | every report counts at least ten operations and carries their prefix, start and summed amount |
| Bursts.DenseWindowReported | app.py:1061-1076 | a window of ten or more operations opened by a qualifying operation is always reported |
| Bursts.SparseClientSilent | app.py:1059-1070 | a client with fewer than ten qualifying operations is never reported |
| WordMining.Outflows | app.py:690 | the outflow rows of the case and no other, each kept exactly as many times as it occurs in the case |
| WordMining.CollectWords | app.py:695-704 | the collecting loop gives the uses of the specification: each long word of each outflow memo, in order |
| WordMining.CollectRow | app.py:697-704 | the inner loop gives the long words of one memo, in order |
| WordMining.UsesInSpec | app.py:696-704 | a use is recorded exactly when some row's memo holds a long word, with that row's prefix and amount |
| WordMining.FindSharedVendors | app.py:690-716 | the detector returns the outcome of the specification |
| WordMining.SharedVendors | app.py:692 | there are no outflows exactly when the outflow rows are empty |
| WordMining.VendorsRows | app.py:706-716 | each reported vendor is a long word of some outflow memo, shared by at least the minimum number of prefixes, with its prefixes and summed amount |
| WordMining.VendorsComplete | app.py:714-716 | a long word shared widely enough is missing only when 20 lines with at least as many prefixes are shown |
| WordMining.TopVendorsShape | app.py:716 | at most 20 lines, most shared first, none repeated |
| WordMining.Record | app.py:1176-1184 | one word's entry is created when new and then updated; the insertion order gains the word only when new |
| WordMining.TallyWord | app.py:1174-1184 | one word of a memo is tallied exactly when long and not excluded |
| WordMining.TallyMemo | app.py:1172-1184 | a present memo's words are tallied in order; a null memo adds nothing |
| WordMining.TallyWords | app.py:1169-1184 | the loop leaves the dictionary of the specification and its insertion order |
| WordMining.TalliesSpec | app.py:1169-1184 | a word has an entry exactly when counted; its entry holds its mention count, its distinct prefixes and its summed amount |
| WordMining.MineText | app.py:1164-1197 | the detector returns the outcome of the specification |
| WordMining.TextMining | app.py:1164-1197 | the corrected detector never fails, and reports no outflows exactly when there are none |
| WordMining.TextMiningRows | app.py:1186-1197 | each reported word is long, not excluded, in some outflow memo, shared by two prefixes or more, with its count, prefix count and amount |
| WordMining.TextMiningComplete | app.py:1196-1197 | a counted word shared by two prefixes or more is missing only when 30 lines with at least as many prefixes are shown |
| WordMining.TopWordsShape | app.py:1197 | at most 30 lines, most shared first, none repeated |
| WordMining.ExcludedNeverCounted | app.py:1175 | an excluded word, or one of four characters or fewer, is never counted |
| WordMining.TextMiningKeyError | app.py:1186-1196 | a case whose only outflow memo is `PAGO` makes the detector as written fail |
| WordMining.TextMiningCorrected | app.py:1186-1197 | wherever the detector as written does not fail, the corrected one gives the same result; where it fails, the corrected one shows an empty table |
| Tables.Where | app.py:364-365 | the rows whose column holds the value, each kept exactly as many times as it occurs, and no other row |
| Tables.TopSpec | app.py:362 | `sort_values` then `head(n)` keeps rows of the input, ranked, and no row left out ranks above one kept |
| Tables.GroupTableSpec | app.py:356-359 | a `groupby` line exists exactly for each key present, no key twice, with its sum and a positive count |
| Tables.GroupTableConserves | app.py:356-359 | the group totals add up to the total of the grouped rows |

## Left out

- The Streamlit pages, the charts (`plotly`, `spring_layout` and the drawn
  graph) and the PDF and Excel reports: presentation only.
- The other detectors of the analysis page (branches 2, 4, 6 "Retiros Hormiga",
  7, 11, 12, 15 and 17): outside the modelled core.
- Executing SQL: `read_sql_query` is modelled by `CaseQuery.CaseRows`, the
  rows the query selects; `to_sql` by the `Insert` event of a row slice.
- The column renaming and the memo cleaning done before the inserts of
  `cargar_datos`: the load is modelled by the row slices it writes.
- Floating point: amounts are exact reals and `round(2)` is not modelled, so
  a result that pandas rounds is stated exactly.
- Parsing of dates and times: a row carries its parsed timestamp or `None`;
  the parser itself is not modelled. app.py:756-757, 798 and 939 call
  `pd.to_datetime` without `errors='coerce'`, so one unparsable date raises
  instead of giving a table; at 939 that holds for every row of the
  case, including the rows of the groups that
  `DailyFlows.BridgeIgnoresOtherGroups` shows to be irrelevant to the result.
  Aggregations.DisposableSpec, DailyFlows.PassThroughSpec and
  DailyFlows.BridgeSpec assume that every date they read parses.
- Aggregations.Top10Ranked: the order among groups with equal totals is the
  model's stable order, not pandas' (which gives none).
- DailyFlows.PassThroughSpec: the `head(20)` applied when the pass-through
  table is displayed (app.py:824) is not modelled; the result is the whole table.
- DailyFlows.BridgeSpec: likewise, the displayed `head(20)` of the bridge
  table (app.py:966) is not modelled.
- WordMining.VendorsRows: the list `list(set(x))` of client prefixes is
  modelled as the set itself; its order is not modelled.
- The progress messages passed with each value in `utils_backup.py`: only
  the values are modelled.
- Memo.Normalize: a character counts as a word character when it is an
  ASCII letter, digit or `_`, or any non-ASCII character other than a blank;
  so non-ASCII punctuation and symbols such as `–`, `°` and `¿` are kept,
  where Python's `[^\w\s]` turns them into blanks. Digits are the ASCII
  digits only, where Python's `\d` removes every Unicode decimal digit.
  Upper-casing covers the Latin-1 letters only and maps one character to
  one, so a letter such as `ā` is kept in lower case and `ß` is not
  upper-cased to `SS`. The same upper-casing is shared by Memo.TermList
  (`strip().upper()` of the analyst's lists, app.py:391 and 1167) and by
  the case-insensitive activity match of Aggregations.TransportSuspects
  (`case=False`, app.py:394), which carry the same gaps.

## Findings

| source | as written | input that shows it | evidently intended | confidence | as-written member | corrected member |
|---|---|---|---|---|---|---|
| app.py:1186-1196 | when no outflow memo holds a counted word, `palabras_freq` is empty, the frame built from it has no `Num Clientes` column and the filter on that column raises `KeyError` | a case whose only outflow has the cleaned memo `PAGO` (every word of four characters or fewer) | an empty word table, as the shared-vendor detector gives through its `empty` test | not executed | WordMining.TextMiningKeyError | WordMining.TextMiningCorrected |
| utils.py:83-92 | every `to_sql` call on the sqlite3 connection commits when it returns, so the `cargas` row and each chunk written before a failing step are already committed when `conn.rollback()` runs; utils_backup.py:91-109 does the same | 10000 rows whose second chunk of 5000 fails to insert: the load raises, yet the `cargas` row and rows 0 to 4999 stay in the database | a failed load leaves nothing in the database, as the closing rollback intends | not executed | BulkLoad.PartialLoadSurvives | BulkLoad.UtilsAtomicStored |
| utils_backup.py:120 | the case id is bound as passed; the caller hands over the numpy int64 read from the cases table (app.py:279), which `sqlite3` binds as a BLOB, and the INTEGER column `ci.id_caso` equals no BLOB | any case, with any links and filters: the join selects no member and the case has no rows | the id bound as an INTEGER, as utils.py:102 does with `int(id_caso)` | not executed | CaseQuery.BackupIdSelectsNothing | CaseQuery.CoercedIdSelectsCase |
