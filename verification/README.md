# Torvix, verified

Torvix ingests billing files into `cost_records`, keeps precomputed summaries and anomalies that must agree with those
records, and runs a waste-finding lifecycle and report delivery on top. This project models those components as state
(record store, processed marks, checkpoints, summary and anomaly tables, findings, delivery log) and steps that can fail
at any repository or client call, and proves what every run keeps.

`dafny verify dfyconfig.toml` checks everything.

## How it is organised

| file | component |
|---|---|
| `Calendar`, `Rows`, `Numerals` | instants, windows and buckets; filter, group-by and sums over rows; decimal numerals and string order |
| `Domain`, `CostStore`, `Collect` | records; tables with their unique indexes; the batch handler |
| `Streaming`, `Retention` | the buffer shared by the file collectors; what a streamed file leaves in the store, row by row |
| `OciCollector` | OCI runs |
| `OciNames`, `OciSeek` | report names and the listing; the gallop and binary search for the first recent report |
| `OciSeekExact`, `OciNumbering`, `OciListing` | when that search is right, for any numbering; dense and steady numbering; the candidate listing |
| `CurParser`, `CurCollector`, `CurAssembly` | AWS CUR parsing and line hashes; CUR runs; rebuilding whole files from a stream |
| `CollectRun`, `Interleaving` | a whole run with checkpoints and the final refresh; independence of concurrent providers |
| `Summaries`, `Anomalies`, `DashboardRefresh` | the incremental refresh and what it is equal to |
| `SummariesExact`, `AnomaliesExact` | what a summary row and an anomaly say, column by column |
| `Precedence`, `DashboardView` | the AWS source precedence in its SQL and Go forms |
| `WasteRules`, `WasteFindings`, `WasteEngine` | rule evaluation; every history of a finding; the scan |
| `Reports` | report delivery |

Code that updates state in loops (the collectors, the handler, the refresh, the scan, the deliveries) is modelled by
classes and methods with loops; SQL queries are functions over sequences of rows, and a transaction that fails leaves its
tables as they were. A call that can fail is a nondeterministic choice, so every theorem holds for every pattern of such
failures.

## Assumptions

- Dry run is off. Statements are atomic and transactions roll back. Database sessions run in UTC and the columns used as
  keys are not null.
- Instants are integer nanoseconds in UTC, costs and thresholds are exact reals.
- Clock readings never go backwards. Statements about the earliest record assume that no stored record is dated on the
  first day of year 1, on which Go's zero time lies; the parsers reject rows without a start time.
- Every ingestion limit is at least 1, which the configuration defaults ensure (`internal/config/config.go:639-664`).
- Source objects have non-empty names, which the listings ensure. Stored records are as the collectors write them
  (`CostStore.AsCollected`, which every modelled operation keeps): a CUR row names the same object as file key and as
  source object (`internal/adapters/providers/aws/cur_parser.go:200-224`), and the billing scope type is the linked
  account's for AWS rows of the summary types (the same lines and `internal/adapters/providers/aws/mapper.go:118-127`)
  and empty or the compartment's for OCI rows (`internal/adapters/postgres/repository_dashboard.go:96`). AWS record types
  have no surrounding blanks; the collectors write constants.
- SHA-256 is collision-free (`CurParser.CollisionFree`).
- The OCI bucket is static during a seek and a listing, its names are well formed, its report numbers are distinct and
  have at most 16 digits, and modification times do not decrease with the number. Where the seek's answer is
  characterised exactly, every report has a modification time, as stored objects do.
- Delivery calls run one after another.

## Where the code does not do what one might expect

Each is a lemma with a concrete input or an exact condition.

- The HTTP overview counts AWS rows without a record type that the SQL overview leaves out; they are the only rows the two
  filters disagree on (`DashboardView.GoAdmitsIff`, `DashboardView.LegacyRowsDisagree`), and the two overviews differ by
  exactly their cost (`DashboardView.ProviderSpendsAddUp`).
- The OCI run remembers a report by `name|etag`. Two different reports can share that text, and then the run skips the
  second (`OciCollector.IdentityCollision`). A complete run leaves every listed report marked if and only if each is the
  same report as the first with its text or was marked before (`OciCollector.AllMarkedIff`, `CollectRun.RunOci`).
- With gaps in the numbering the seek may answer a report that is not the first recent one, and the reports before it
  are missed: of the numbers 1, 11 and 150001, with 11 and 150001 recent, it answers 150001
  (`OciNumbering.GapMisleadsSeek`). The numbers alone decide: the binary search is right for every dating if and only if
  no probe of an interval that still holds a report lands on its upper end and the 32 probes suffice
  (`OciSeekExact.BinarySearchFindsLeastIff`), and the seek if and only if that is so for each interval the gallop can end
  in (`OciSeekExact.SeekFindsLeastIff`). It is so when the interval is dense and at most 2^32 wide
  (`OciNumbering.SeekIsLeastInDenseInterval`), or when no gap in it is more than one wider than the gap before it and it is
  at most 126,322,567 wide (`OciNumbering.SeekIsLeastInSteadyInterval`).
- The seek may answer nothing although a recent report exists: with the numbers 1 and 2 and only 2 recent the first probe
  of the gallop is past the end (`OciNumbering.RecentButUnanswered`). It answers if and only if the first report or one of
  the 32 gallop points is recent (`OciSeekExact.SeekAnswersIff`); with dense numbering, one of the points must lie between
  the first recent report and the last (`OciNumbering.DenseSeekAnswersIff`). The run then lists from the beginning.
- So the candidates may miss a recent report. For given report numbers, no dating and no window loses one if and only if
  the numbers meet the seek's condition and the scan limit is off or not below the number of reports
  (`OciListing.NoneMissedIff`).
- Ingesting a file again gives a different store when a row has become older than the lookback in between, and only then
  (`CurCollector.ReingestSameIff`).
- A report can go out twice to a destination that is forced or named twice (`Reports.SentTwice`). For any history and any
  failures, a call keeps sends within one per record, plus one per failed record, if and only if the destinations it serves
  and records are distinct and were not on record (`Reports.BoundIff`). Before the call: it does so whatever fails if the
  destinations it will send to are distinct and not on record, and when nothing fails only then
  (`Reports.Deliveries.DeliverReport`); `Reports.PendingIs` spells that out for forced and unforced calls.
- The 'low' severity of a stored anomaly is unreachable (`Anomalies.ReportedSeverity`).
- A finding that a user reopens keeps its `resolved_at` (`WasteFindings.OpenWithStamp`, `WasteFindings.OnlyClosedStampedIff`).

## Model

| member | source | states |
|---|---|---|
| Calendar.YearStart | internal/adapters/postgres/repository.go:901-916 | the calendar behind the month buckets is the Gregorian one: the first day of every year by the closed formula, before and after 1970 |
| Calendar.MonthsOfYear | internal/adapters/postgres/repository.go:901-916 | the months of every year begin where the usual lengths put them |
| Calendar.AlignmentMatchesBuckets | internal/adapters/postgres/repository.go:889-916 | the service's day, week and month alignment yields the bucket boundaries that the database's `time_bucket` groups by, although the two number their buckets from different origins |
| Calendar.NoBucketSplit | internal/adapters/postgres/repository.go:889-916 | a window with aligned ends contains an instant exactly when it contains its whole bucket |
| Calendar.RefreshWindowAligned | internal/adapters/postgres/repository.go:889-899 | the aligned window has aligned ends, starts no later than requested and ends after the requested end |
| Calendar.PreviousWindowShifts | internal/adapters/postgres/repository_dashboard.go:394-403 | the previous window holds exactly the instants whose bucket, moved on by one interval, lies in the window, for months of any length too |
| Summaries.FullSummaryIsAggregation | internal/adapters/postgres/repository_dashboard.go:92-170 | the grouped and joined query over all records has one row per key that occurs, carrying the totals of a plain scan for that period and the one before |
| Summaries.JoinMatchesOnce | internal/adapters/postgres/repository_dashboard.go:92-170 | the thirteen-column left join neither repeats nor drops a row |
| Summaries.WindowRowsAreFullRows | internal/adapters/postgres/repository_dashboard.go:81-180 | rebuilding an aligned window computes exactly that window of the aggregation of all records |
| Summaries.RefreshedTableIsExact | internal/adapters/postgres/repository_dashboard.go:81-180 | after a refresh the table equals the full aggregation inside the window and the old table outside |
| SummariesExact.SummaryRowsSay | internal/adapters/postgres/repository_dashboard.go:92-170 | the aggregation has exactly one row for every bucket and dimensions that some counted record has; its cost is the sum of those records, its previous cost that of the bucket before, change, percentage and period end follow from these; dimensions are the records' own columns with their tag fallbacks |
| SummariesExact.RefreshedBuckets | internal/adapters/postgres/repository_dashboard.go:81-180 | after a refresh the window holds, each once, exactly the rows of the buckets that some record falls into, with the right columns; every other row is as before, as often as before |
| Summaries.RefreshAcceptedIff | migrations/011_provider_agnostic_cost_dimensions.sql:113-126 | the rebuilt table meets the primary key, which leaves out the billing scope type, if and only if no two records of the window agree on the key columns and differ in that type |
| Summaries.WrittenScopeTypesAgree | internal/adapters/providers/aws/cur_parser.go:200-224 | records with the scope types their writers give them never clash in any window |
| Summaries.CollectedRefreshAccepted | migrations/011_provider_agnostic_cost_dimensions.sql:113-126 | on records the collectors wrote, every rebuilt table meets the primary key |
| DashboardRefresh.Repository.RefreshCostSummary | internal/adapters/postgres/repository_dashboard.go:81-180 | delete and insert leave the old table with the window replaced by the full aggregation's; a duplicate key is reported only when scope types clash |
| DashboardRefresh.Repository.RefreshCostAnomalies | internal/adapters/postgres/repository_dashboard.go:182-304 | delete and insert from a seven-day baseline leave detection over the whole daily table inside the window and the old rows outside |
| DashboardRefresh.Repository.PruneDashboardAnalytics | internal/adapters/postgres/repository_dashboard.go:382-387 | exactly the rows that start before the cutoff go, in the three summary tables and the anomaly table |
| DashboardRefresh.Repository.RefreshDashboardAnalytics | internal/adapters/postgres/repository_dashboard.go:15-79 | either nothing changes or the tables are the refreshed ones; success implies scope types agree, a duplicate-key failure implies they do not; primary keys stay unique |
| DashboardRefresh.WrittenWindowsAgree | internal/adapters/postgres/repository_dashboard.go:81-180 | on records as written, none of the three windows of a refresh is refused for a duplicate key |
| DashboardRefresh.RefreshedSummariesExact | internal/adapters/postgres/repository_dashboard.go:15-79 | in each of the three tables, every unpruned bucket of the refreshed window equals the aggregation of all records and every other unpruned bucket is untouched |
| DashboardRefresh.RefreshedRows | internal/adapters/postgres/repository_dashboard.go:15-79 | how often a row is in a refreshed summary table: never before the cutoff, inside the window once if it says what the records say, outside as often as before |
| DashboardRefresh.RefreshedAnomalyRows | internal/adapters/postgres/repository_dashboard.go:15-79 | the same for anomalies, inside the window those of the rebuilt daily table |
| DashboardRefresh.EffectiveRangeSays | internal/adapters/postgres/repository_dashboard.go:15-30 | the requested range is kept where it is one; otherwise it ends now or starts 30 days before its end |
| DashboardRefresh.RefreshedAnomaliesExact | internal/adapters/postgres/repository_dashboard.go:15-79 | if the seven days before the window were correct, the anomalies of the window are those detection over the aggregated records finds |
| Anomalies.BaselineIsLocal | internal/adapters/postgres/repository_dashboard.go:182-304 | seven days before the window hold every prior day that a baseline in the window reads |
| Anomalies.WindowedDetectionIsFull | internal/adapters/postgres/repository_dashboard.go:182-304 | the windowed rebuild is detection over the whole history, restricted to the window |
| Anomalies.AnomaliesAreLocal | internal/adapters/postgres/repository_dashboard.go:182-304 | tables with the same rows, in any order, from seven days before the window on report the same anomalies in it |
| AnomaliesExact.AnomaliesSay | internal/adapters/postgres/repository_dashboard.go:182-304 | daily costs are the sums of the scored rows of a day and series; a day is reported if and only if its series has costs in the seven days before and it is off their mean by at least 1 and by 30 % or two standard deviations; the row has that mean, the deltas, the direction, and high severity from 50 % or three deviations on |
| Anomalies.ReportedSeverity | internal/adapters/postgres/repository_dashboard.go:182-304 | whatever passes the report thresholds is at least of medium severity |
| Precedence.HasCurAgrees | internal/adapters/postgres/repository.go:478-526 | on a correct range, "a CUR row exists that day" means the same over summary rows and over raw records |
| Precedence.OverviewEqualsAggregate | internal/adapters/postgres/repository_dashboard.go:477-543 | on day-aligned ranges, spend summed from correct daily summaries equals the raw aggregation's total, for any aggregation window |
| Precedence.AggregateOfRecords | internal/adapters/postgres/repository.go:478-526 | the raw aggregation totals the records the day-by-day rule admits, so choosing sources commutes with grouping |
| Precedence.AggregationSays | internal/adapters/postgres/repository.go:478-526 | the raw aggregation has one row for every bucket, provider, account and service that some counted record has, with the sum of those records |
| DashboardView.GoAdmitsIff | internal/ports/http/dashboard.go:925-967 | where AWS rows carry trimmed record types, the Go filter and the SQL predicate differ on a row if and only if it is a legacy AWS row without record type, of another scope than "all", on a day without CUR data |
| DashboardView.LegacyRowsDisagree | internal/ports/http/dashboard.go:925-967 | a concrete table, one row from before scopes and record types were stored, on which they differ |
| DashboardView.OneRecordTypePerPeriod | internal/ports/http/dashboard.go:925-967 | in every view of a refreshed table the rows admitted for one AWS period have one record type |
| DashboardView.ViewSays | internal/ports/http/dashboard.go:925-967 | which rows each view shows: all of other providers, CUR rows, and on AWS days without CUR rows the region rows or the linked-account rows, as the dimension and the filters say; legacy rows go by whether their scope is called "all" |
| DashboardView.TrimSays | internal/ports/http/dashboard.go:929-943 | trimming takes away leading and trailing blanks and nothing else |
| DashboardView.OverviewForProvider | internal/ports/http/dashboard.go:780-806 | the accumulated totals are the costs of the rows of the provider that the view shows, for the last 30 days and the 30 before |
| DashboardView.ProviderSpendsAddUp | internal/ports/http/dashboard.go:780-806 | for both ranges, the per-provider spends add up to the SQL overview's spend plus exactly the cost of the legacy rows |
| CostStore.ReplacedSource | internal/adapters/postgres/repository.go:138-156 | replacing what a source holds leaves every other source alone, and the source holds exactly the replacement |
| CostStore.OtherSourceKept | internal/adapters/postgres/repository.go:138-156 | deleting a source keeps the rows of every other source, in order |
| CostStore.ConflictsIff | migrations/016_aws_cur_idempotency.sql:4-13 | rows conflict exactly as the two partial unique indexes say, column by column |
| CostStore.InsertAllAppends | internal/adapters/postgres/repository.go:332-460 | upserts without key conflicts are a plain append |
| CostStore.InsertAllKeeps | migrations/016_aws_cur_idempotency.sql:4-13 | the partial unique indexes hold after any upserts, and conflict-free upserted rows are all in the table |
| CostStore.UpsertIdempotent | internal/adapters/postgres/repository.go:332-460 | upserting keyed rows a second time changes nothing |
| CostStore.Store.DeleteCostRecordsForSource | internal/adapters/postgres/repository.go:138-156 | removes exactly the source's rows, or nothing when it fails or the name is empty |
| CostStore.Store.StoreCostRecords | internal/adapters/postgres/repository.go:111-136 | all rows are upserted in order or none is |
| CostStore.Store.MarkReportProcessed | internal/adapters/postgres/repository.go:462-476 | records the count for that report version only |
| CostStore.Store.MarkIngestionCheckpoint | internal/adapters/postgres/repository.go:184-194 | a checkpoint is the greatest value marked so far and never decreases; other providers' are untouched |
| Collect.FilterRecordsWithinLookback | internal/core/collect/service.go:369-383 | retained and skipped records add up to the input; exactly the non-zero timestamps before the cutoff are skipped, order kept |
| Collect.ProviderRun.Handle | internal/core/collect/service.go:237-259 | a Final batch marks the report, any other is stored; First deletes the source before; a failed call leaves the old records or those without the source |
| Collect.ProviderRun.StoreNormalizedBatch | internal/core/collect/service.go:277-322 | keeps, over every failure pattern, within-lookback + skipped-old = records handed over, inserted = records stored, and the earliest-record field the least stored timestamp |
| Collect.ProviderRun.Replace | internal/core/collect/service.go:290-304 | the first batch deletes the source before storing; a failure leaves the old records or those without the source |
| Collect.ProviderRun.TrackEarliest | internal/core/collect/service.go:316-320 | the field becomes the least timestamp of everything stored so far |
| Streaming.FlushStep | internal/adapters/providers/oci/collector.go:157-190 | a flushed buffer becomes one acknowledged batch of 1 to limit records, First only on the first, and moves the store on by the records it retains |
| Streaming.StoredClear | internal/adapters/postgres/repository.go:332-460 | once a source's old rows are gone, a row of its file conflicts with nothing stored, so no other source is overwritten |
| Streaming.FileStream.Accept | internal/adapters/providers/oci/collector.go:194-205 | acknowledged batches and buffer make up the accepted rows, in order; the buffer stays below the limit |
| Streaming.FileStream.Finish | internal/adapters/providers/oci/collector.go:239-247 | after the Final call the calls have the shape of a complete stream, its record count is the true one, and the source holds what the stream stored |
| Streaming.FileStream.Cleanup | internal/adapters/providers/oci/collector.go:275-287 | after any failure, deletes every record of the source and none of another |
| Streaming.CleanupLeavesOthers | internal/adapters/providers/oci/collector.go:275-287 | whatever part of a file was stored, deleting the source leaves what all other sources held before the file |
| Retention.StreamRetains | internal/core/collect/service.go:277-322 | a complete stream leaves, in order, exactly the rows dated no earlier than the cutoff of their call, or undated; each is as parsed, except that an empty category becomes the service |
| Retention.RetainedCost | internal/core/collect/service.go:277-322 | so the stored cost is that of the recent rows |
| OciCollector.ParseReport | internal/adapters/providers/oci/collector.go:192-205 | a report read to its end has all its rows accepted in order, and the selection-window counter is positive exactly if some row is in the window |
| OciCollector.StreamObject | internal/adapters/providers/oci/collector.go:138-247 | whole-file replacement: success leaves exactly the file's recent rows, unaltered, under its name, by cutoffs of moments of the stream, marked with the true count, sent as non-empty bounded batches with First on the first call and one Final last; failure marks nothing and with a successful cleanup leaves none; other sources never change |
| OciCollector.RunsSnoc | internal/adapters/providers/oci/collector.go:249-262 | a counter reset by every hit and capped below the limit keeps all runs of misses within the limit |
| OciCollector.IngestObject | internal/adapters/providers/oci/collector.go:131-262 | one candidate more is processed or failed; the run stops here only over an error or the zero-yield limit, and goes on only below both the failure and the zero-yield limit |
| OciCollector.ConsumeCandidate | internal/adapters/providers/oci/collector.go:98-262 | one turn of the loop: a candidate is skipped, processed, failed, or left for a later run because a limit was reached |
| OciCollector.CollectStream | internal/adapters/providers/oci/collector.go:66-266 | skipped + processed + failed = candidates consumed; downloads within MaxFilesPerRun, none twice, none marked before; no more than three failed downloads and MaxZeroYieldFiles zero-yield files in a row; no batch above the buffer limit; without errors the marks grow by exactly the first candidate of every identity and every parsed record reached the handler; with no error and no limit hit all candidates are consumed; unlisted sources unchanged; every object streamed last with success holds its recent rows, unaltered |
| OciCollector.AllMarkedIff | internal/adapters/providers/oci/collector.go:108-114 | after a complete run every listed report is marked if and only if each agrees in name and tag with the first candidate of its identity or was marked before the run |
| OciCollector.TagsKeepApart | internal/adapters/providers/oci/collector.go:108-114 | tags without the separator keep identities apart, so that complete runs mark every listed report whatever was marked before |
| OciCollector.IdentityCollision | internal/adapters/providers/oci/collector.go:108-114 | two reports with one identity: the second is no first candidate, and is marked after a complete run only if it was before |
| OciNames.NumberOfName | internal/adapters/providers/oci/collector.go:485-509 | a well-formed name reads back as its number |
| OciNames.NameOrder | internal/adapters/providers/oci/collector.go:485-509 | up to 16 digits, a name sorts before the start name of m exactly when its number is below m |
| OciNames.NameOrderWide | internal/adapters/providers/oci/collector.go:485-487 | where a 17-digit start name sorts among 16-digit names |
| OciNames.FirstIsAtOrAfter | internal/adapters/providers/oci/collector.go:466-478 | the listing's answer to a start name is the first report with that number or a higher one |
| OciSeek.BinarySearchCostReportStart | internal/adapters/providers/oci/collector.go:436-464 | without failed listings the loop computes the specified search, in at most 32 listings |
| OciSeek.BinarySearchSafe | internal/adapters/providers/oci/collector.go:436-464 | on any numbering the answer is an existing recent report and every later report is recent |
| OciSeek.SeekIsSafe | internal/adapters/providers/oci/collector.go:394-464 | on any numbering an answer is an existing report modified at or after `since`, and every later report is too |
| OciSeek.FindCostReportStartNumber | internal/adapters/providers/oci/collector.go:394-434 | the loop gives the specified answer whenever no listing fails, in at most 65 listings; an answer is a recent report with only recent ones after it |
| OciSeekExact.BinarySearchFindsLeastIff | internal/adapters/providers/oci/collector.go:436-464 | for numbers and ends of any kind: the search finds the first recent report for every dating and window if and only if no probe of an interval that still holds a report lands on its upper end and the probes suffice |
| OciSeekExact.PastSixteenDigits | internal/adapters/providers/oci/collector.go:409-432 | a probe past the 16-digit numbers above an old report with a number beyond 2 * 10^15 finds old reports only, and so do all later probes |
| OciSeekExact.GallopIsBinarySearch | internal/adapters/providers/oci/collector.go:409-432 | on any numbering the gallop answers nothing or hands an old lower and a recent upper end, at least 100,000 apart, to the binary search |
| OciSeekExact.SeekAnswersIff | internal/adapters/providers/oci/collector.go:394-434 | the seek answers if and only if the first report or one of the 32 gallop points, which depend on the numbers only, is recent |
| OciSeekExact.SeekIsLeast | internal/adapters/providers/oci/collector.go:394-464 | the answer is the first recent report whenever the numbers of the final interval meet the condition, whatever the numbers outside |
| OciSeekExact.SeekFindsLeastIff | internal/adapters/providers/oci/collector.go:394-464 | every answer for every dating and window is the first recent report if and only if the numbers meet the condition wherever the gallop may end |
| OciNumbering.DenseResolves | internal/adapters/providers/oci/collector.go:436-464 | t probes master any interval of up to 2^t numbers that are all taken |
| OciNumbering.SeekIsLeastInDenseInterval | internal/adapters/providers/oci/collector.go:394-464 | with all numbers of the final interval taken and at most 2^32 of them, an answer is the first recent report |
| OciNumbering.TotalIs | internal/adapters/providers/oci/collector.go:428-430 | the gallop points of a dense bucket: 100,000 * (2^k - 1) above the first number, then steps of 100,000 * 2^20 |
| OciNumbering.DenseSeekAnswersIff | internal/adapters/providers/oci/collector.go:394-434 | on a dense bucket the seek answers if and only if the first report is recent or a gallop point lies between the first recent report and the last |
| OciNumbering.SteadyResolves | internal/adapters/providers/oci/collector.go:436-464 | t probes master an interval whose gaps grow by at most one each if its last inner number is less than 2^t / (t + 2) + (t + 1) / 2 above the lower end, whatever is missing |
| OciNumbering.SeekIsLeastInSteadyInterval | internal/adapters/providers/oci/collector.go:394-464 | with such gaps in a final interval of at most 126,322,567, the answer is the first recent report |
| OciNumbering.GapMisleadsSeek | internal/adapters/providers/oci/collector.go:436-464 | three reports on which the seek answers the third although the second is the first recent one |
| OciNumbering.RecentButUnanswered | internal/adapters/providers/oci/collector.go:394-434 | two reports on which the seek answers nothing although the second is recent |
| OciListing.ListObjectsFrom | internal/adapters/providers/oci/collector.go:358-392 | whatever the page sizes, the pages join up to the listing from the start name cut at the limit, and the repeated-token error cannot arise on a static bucket |
| OciListing.SortReverses | internal/adapters/providers/oci/collector.go:349-354 | newest first, on a bucket whose modification times follow the names, is the listing reversed |
| OciListing.ListRecentCostReportObjects | internal/adapters/providers/oci/collector.go:325-356 | the candidates are exactly the reports from the sought start, or from the first when there is none, within the limit and not older than a day before `since`, newest first and each once; a recent report is a candidate if and only if the limit reaches it from there |
| OciListing.NoneMissedIff | internal/adapters/providers/oci/collector.go:325-356 | for given numbers, every recent report is a candidate under every dating and window if and only if the numbers meet the seek's condition wherever the gallop may end and the limit is off or at least their count |
| CurParser.LinesApart | internal/adapters/providers/aws/cur_parser.go:363-378 | the line number leads the hashed parts, so accepted rows of different lines never share an upsert key |
| CurParser.AcceptedBelong | internal/adapters/providers/aws/cur_parser.go:167-245 | every accepted record is a CUR row owned by its file |
| CurParser.RecordSays | internal/adapters/providers/aws/cur_parser.go:167-245 | a row becomes a record if and only if it has a start time, a cost and an account; the record says what the row says, with the defaults for empty columns |
| CurParser.AcceptedCost | internal/adapters/providers/aws/cur_parser.go:44-86 | the records of a file cost together what its billed rows cost |
| CurParser.AcceptedConflictFree | internal/adapters/providers/aws/cur_parser.go:44-86 | the accepted lines of one file have distinct upsert keys |
| CurParser.SecondUpsertChangesNothing | internal/adapters/providers/aws/cur_parser.go:363-378 | upserting a file's records again, even without deleting them first, changes nothing |
| CurCollector.ParseCurCsvStream | internal/adapters/providers/aws/cur_parser.go:44-86 | the accepted rows are handed on in order; parsed counts the readable rows, skipped and accepted rows add up to all |
| CurCollector.StreamCurSource | internal/adapters/providers/aws/cur_collector.go:247-306 | whole-file replacement as for OCI, with the accepted rows; a failed file whose cleanup, if one was needed, succeeded holds its old records or none, never a mix |
| CurCollector.ConsumeFile | internal/adapters/providers/aws/cur_collector.go:118-142 | one listed file more is processed or failed, and only that file's source changes |
| CurCollector.CollectStream | internal/adapters/providers/aws/cur_collector.go:84-144 | processed + failed = files consumed, within the file limit; without errors every consumed file is marked and every accepted record reached the handler; with no error and no limit hit all files are consumed; unlisted sources unchanged; every object streamed last with success holds its recent rows, unaltered |
| Retention.StreamStores | internal/adapters/providers/aws/cur_collector.go:247-306 | a complete stream stores exactly the rows that are not older than the cutoff of the call that carries them, in order, for any mix of old and new rows |
| CurCollector.ReingestSameIff | internal/adapters/providers/aws/cur_collector.go:247-306 | a second pass with any batch sizes leaves what it stores itself; the store is the same as after the first if and, as clocks do not go back, only if no row became too old in between |
| CurAssembly.Assembly.Handle | internal/adapters/providers/aws/cur_collector.go:60-79 | records are held back for the object named last and dropped when another object follows; a Final batch releases exactly those of its own object |
| CurAssembly.CollectFiles | internal/adapters/providers/aws/cur_collector.go:54-82 | one batch per finished file with all its accepted records in order; files that failed part way contribute nothing, wherever they were cut |
| CollectRun.EffectiveSinceIsLatest | internal/core/collect/service.go:210-231 | the window starts at the latest of the requested time, the lookback limit and an hour before the checkpoint |
| CollectRun.SinceNotAhead | internal/core/collect/service.go:210-231 | a window never starts ahead of its run, if neither the request nor the checkpoint is ahead |
| CollectRun.RunOci | internal/core/collect/service.go:82-146 | without errors parsed = within-lookback + skipped-old and inserted = within-lookback; a checkpoint moves only with no error, a processed file and no limit hit, never back, and then the marks grow by exactly the first candidates, so that every listed report is marked if and only if none was mistaken for another; only OCI marks are added; a new checkpoint is a moment of the run; the objects streamed hold their recent rows, unaltered |
| CollectRun.RunAws | internal/core/collect/service.go:82-146 | the same for AWS CUR: a moved checkpoint means that every listed file is marked, and is a moment of the run; without errors every consumed file's object holds its recent rows, unaltered |
| CollectRun.EarliestRecord | internal/core/collect/service.go:154-163 | the refresh starts from the least earliest-record of the providers, or now |
| CollectRun.StoredRecordsCovered | internal/core/collect/service.go:154-169 | in each of the three windows, the bucket of every stored record dated up to the refresh end lies in the refreshed window |
| CollectRun.CoveredBucketsExact | internal/core/collect/service.go:154-189 | after a successful refresh the summary rows of a covered record's bucket are exactly those that say what the records say |
| CollectRun.RunProviders | internal/core/collect/service.go:79-152 | both providers in either order: records conserved per provider; checkpoints never fall, and one moves only when its collection processed something, hit no limit and marked every first candidate or listed file, with the exact condition for all OCI reports; only listed sources change; a new checkpoint is a moment of the run, so none is ahead of it if none was; the objects of both providers hold what was streamed |
| CollectRun.RefreshAfter | internal/core/collect/service.go:154-189 | nothing is refreshed only if nothing was stored or an error is reported, and that error is never a duplicate key; otherwise the windows cover the run's records and the tables are the refreshed ones |
| CollectRun.Run | internal/core/collect/service.go:66-208 | a whole run: what the providers keep, then a refresh up to a day ahead that covers what was stored, prunes by the retention and is never refused for a duplicate key |
| Interleaving.ExecuteOwn | internal/core/collect/service.go:79-152 | a statement of one provider does not show in another's part of the store |
| Interleaving.ProvidersAreIndependent | internal/core/collect/service.go:79-152 | for every interleaving, a provider's part of the store is what its own statements alone would make it |
| Interleaving.InterleavingsAgree | internal/core/collect/service.go:79-152 | interleavings answer a provider's questions about marks and checkpoints alike |
| Interleaving.Perform | internal/adapters/postgres/repository.go:111-194 | each statement is one call on the store, which does what the history says or, when it fails, nothing |
| Interleaving.PerformAll | internal/adapters/postgres/repository.go:111-194 | after any calls, some failed, the store is as after the successful ones, and what it holds for a provider is what that provider's successful calls alone would make it |
| WasteRules.OlderThanIff | internal/waste/rules/oci.go:303-308 | the truncated and saturated age exceeds some days exactly when the resource is that many whole days and one more old, or of unknown age |
| WasteRules.StoppedComputeFinding | internal/waste/rules/oci.go:157-225 | the loop computes the specified finding from the attached, known and not excluded storage |
| WasteRules.EvaluateOci | internal/waste/rules/oci.go:25-73 | the loops compute the findings and the number of excluded resources as specified |
| WasteRules.FindingsAreSound | internal/waste/rules/oci.go:25-155 | every finding is about a listed, not excluded OCI resource, under the rule of its kind, with the severity of its estimate; an attached volume or assigned address is never reported |
| WasteRules.VolumeReportedIff | internal/waste/rules/oci.go:112-155 | a block or boot volume is reported if and only if it is usable, old enough, without its own kind of attachment, and its cost is unknown or above the threshold |
| WasteRules.AddressReportedIff | internal/waste/rules/oci.go:227-265 | an address is reported if and only if it is usable, old enough, not assigned, and its cost is unknown or above the threshold |
| WasteRules.InstanceReportedIff | internal/waste/rules/oci.go:157-225 | an instance is reported if and only if it is stopped, old enough, and storage that is listed and not excluded is attached to it; costs play no part |
| WasteRules.OwnCostSays | internal/waste/rules/oci.go:112-155 | a volume or address is estimated at thirty sevenths of its week's cost, or else at its month's; known cost makes it more certain |
| WasteRules.StorageCostSays | internal/waste/rules/oci.go:157-225 | a stopped instance is estimated by the summed costs of its listed, not excluded storage as far as they are positive, with the confidence its known costs give |
| WasteRules.OneFindingPerResource | internal/waste/rules/oci.go:25-73 | distinct resources have at most one finding each |
| WasteRules.FewerCostsFewerExcuses | internal/waste/rules/oci.go:112-265 | removing entries from the costs never removes a finding |
| WasteFindings.ClosedIsStamped | internal/adapters/postgres/repository_waste.go:292-448 | in every reachable table a resolved or fixed finding has resolved_at set |
| WasteFindings.OnlyUsersTakeBack | internal/adapters/postgres/repository_waste.go:292-448 | between a decision and any later, different status lies a user update of that finding |
| WasteFindings.OnlyClosedStampedIff | internal/adapters/postgres/repository_waste.go:421-448 | resolved_at stays confined to closed findings if and only if the step is not a user reopening a stamped one |
| WasteFindings.OpenWithStamp | internal/adapters/postgres/repository_waste.go:421-448 | a history that ends in an open finding with resolved_at set |
| WasteEngine.SeenTextInjective | internal/waste/engine/service.go:107-119 | among catalog rules the text a scan remembers, resource and rule joined by a bar, determines the finding |
| WasteEngine.ScanLeavesDetectedOpen | internal/waste/engine/service.go:105-124 | after upserts and resolution the open catalog findings are exactly the detected ones that no user has decided |
| WasteEngine.ScanIsDone | internal/waste/engine/service.go:105-124 | the whole table after a scan: rows of what was found say what was found, open ones under the catalog's rules that were not found are resolved, every other row is as before |
| WasteEngine.StatusTextIff | internal/waste/engine/service.go:168-176 | a text names a status if and only if it is that status's own |
| WasteEngine.FindingStore.UpsertWasteFinding | internal/adapters/postgres/repository_waste.go:292-339 | creates or updates one finding: its row says what was found, an existing one keeps its id, a resolved or fixed one is open again and any other keeps its status; other rows are as before and ids stay unique |
| WasteEngine.FindingStore.ResolveMissingWasteFindings | internal/adapters/postgres/repository_waste.go:341-358 | resolves exactly the open findings of the rules that were not seen, and counts them |
| WasteEngine.FindingStore.UpdateWasteFindingStatus | internal/adapters/postgres/repository_waste.go:421-448 | sets the status of the finding with that id only, stamping it when it is closed |
| WasteEngine.Service.UpsertAll | internal/waste/engine/service.go:105-119 | created counts the new keys and updated the others; an upsert that fails leaves a prefix of the findings upserted |
| WasteEngine.Service.Run | internal/waste/engine/service.go:41-148 | a successful scan leaves every detected key with what was found now and every other finding as it was; open are exactly the detected, undecided keys; created + updated = detected, the table grows by created, resolved counts the undetected; a failed scan resolves nothing; decisions and other providers' findings are kept in all cases; a second run is refused while one is active |
| WasteEngine.Service.UpdateFindingStatus | internal/waste/engine/service.go:168-176 | an unknown status changes nothing |
| Reports.RangeHasDailyData | internal/core/reporting/service.go:299-314 | complete exactly if every day of the range has rows |
| Reports.Deliveries.SendTo | internal/core/reporting/service.go:246-259 | a report that went out is put on record unless recording fails, and a failed send changes nothing |
| Reports.OnceMoreIff | internal/core/reporting/service.go:244-261 | one attempt: the bound survives exactly when the destination is not served and recorded once more, and a broken bound stays broken |
| Reports.Deliveries.DeliverReportToDestinations | internal/core/reporting/service.go:244-261 | one result per destination in order; the log changes as the results say; the bound holds afterwards if and only if it held and the destinations served and recorded are distinct and were not on record |
| Reports.Deliveries.ChoosePending | internal/core/reporting/service.go:171-192 | destinations are divided between early results and pending ones; if no check fails, pending are exactly those to send to, and failed checks only take some away |
| Reports.Deliveries.DeliverReport | internal/core/reporting/service.go:210-242 | each named destination, or the default one, gets exactly one result; the log changes as the results say; whatever fails, the bound survives if the destinations to send to are distinct and not on record, and when nothing fails only then |
| Reports.Deliveries.DeliverScheduledReport | internal/core/reporting/service.go:155-208 | nothing goes out unless the completeness gate passes, and the gate refuses only an incomplete range; then as DeliverReport |
| Reports.BoundIff | internal/core/reporting/service.go:244-261 | for any history and any results of a call, sends stay within one per record and failed record if and only if they did before and the destinations served and recorded are distinct and were not on record |
| Reports.PendingIs | internal/core/reporting/service.go:171-192 | a forced call sends to all its destinations; an unforced one to those without the report, of which the bound asks only that none is named twice |
| Reports.SentTwice | internal/core/reporting/service.go:171-192 | a destination served once keeps the bound, and served again breaks it |

## Left out

- Cost Explorer ingestion and its store path: its upsert key ignores the source object, so replacement per source does not apply.
- Forecasts, compression chunks, continuous aggregates, retention of raw records and monitoring.
- `DetectAnomalies` of repository.go: its baseline counts rows, not days, and it is not the refreshed anomaly table.
- Summary rows outside the refreshed windows: deleting an old version of a source can remove records dated before them.
- CurCollector.ParseCurCsvStream: a file is read to its end. A read error other than the end of the file counts as a malformed row and reading goes on, so on an error that repeats, as from a truncated compressed body, the loop does not end; no theorem speaks of such a file.
- CSV decoding, time and number parsing, column mapping, tag keys and region names: a CSV row enters with parsed fields.
- Time zones other than UTC, and the ranges scheduled reports are built for.
- Delivery calls that overlap: two calls may both find a destination without the report, and then what goes out is as in Reports.SentTwice.
- Floating-point rounding of costs, ages and thresholds; z-scores are compared through squares.
- Inventory synchronisation, AI enrichment, finding texts and evidence.
- The local-file variant of CUR ingestion, which streams one file as the S3 variant does.
- DashboardRefresh.Repository.PruneDashboardAnalytics: the deletion of old forecasts is not modelled, because no other modelled step reads that table.
- DashboardRefresh.Repository.RefreshDashboardAnalytics: the contents of the forecast table are not modelled; rebuilding it is a step that may fail and undo the refresh.
- DashboardView.OverviewForProvider: the percentage, the anomaly count and the latest ingestion time of the same function are not modelled.
- Collect.ProviderRun.StoreNormalizedBatch: the branch for batches that are stored and marked in one call, which Cost Explorer ingestion takes, is not modelled.
- CollectRun.RunProviders: the providers run one after the other, in either order; Interleaving.PerformAll covers concurrent ones on the level of store calls.
- CollectRun.Run: as CollectRun.RunProviders, and lifecycle maintenance after the refresh is not modelled.
- Interleaving.ProvidersAreIndependent: stated for all statement sequences, not only for those that the collectors issue.
- Interleaving.InterleavingsAgree: stated for questions put to the store, not carried over to the collectors' loops.
- CollectRun.EffectiveSinceIsLatest: a requested zero time counts as the lookback limit only if that limit is not before year 1.
