# scm_risk_detector_backend in Dafny

This project models the core of the supply-chain risk detector backend:

- **Risk engine.** It scores a close/volume series by change-point
  segments: relative-change features, segment volatility, min-max scaling,
  an EMA, a clip and a scale to percent.
- **Batch driver.** It selects CSV files, scores them, groups the results by
  symbol and stamps each group for the RISK table.
- **RISK upsert.** It writes the scores into the keyed table.
- **Bookkeeping code:**
  - the incremental stock-price sync;
  - the chunked CSV store of the provider pipeline, with its cache and
    catch-up;
  - config reshaping and data-provider creation;
  - the chat-history window;
  - missing-news-day detection;
  - the chart-DB batch insert;
  - the news link and contents pipeline.

Each core source file has one Dafny module:

| module | file | source |
|---|---|---|
| `RiskEngine` | risk_engine.dfy | module/analysis/ts/change_point_detection.py |
| `RiskBatch` | risk_batch.dfy | scripts/run_calculate_risk_values.py |
| `RiskTable` | risk_table.dfy | module/data/database/risk_data_inserter.py |
| `StockPriceSync` | stock_price_sync.dfy | scripts/update_stock_price.py |
| `ProviderPipeline` | data_pipeline.dfy | module/data/providers/core.py, module/data/providers/data_pipeline.py |
| `ConfigUtils` | config_utils.dfy | module/utils.py |
| `ChatHistory` | chat_history.dfy | module/analysis/llm/utils.py |
| `OmissionNews` | omission_news.dfy | data/news/omission_news.py |
| `ChartDb` | chart_db.dfy | module/data/database/aggregated_dataset_db_refac.py |
| `NewsPipeline` | news_pipeline.dfy | module/data/providers/news_pipeline.py |

Shared modules model the parts of Python and pandas the core relies on:

- `Wrappers`: Option and Result.
- `Calendar`: proleptic Gregorian dates, `toordinal`, `%Y-%m-%d` formatting and parsing, timestamps.
- `Text`: `str(n)` for naturals.
- `Paths`: `os.path.join`, `basename`, `dirname`, `normpath`.
- `Frames`: stable sort, `drop_duplicates`, boolean masks, `concat`.

Objects whose fields the source updates become classes. These are:

- `RiskDataInserter` and its score frame;
- `StockDataInserter`;
- `ProviderDataPipeline` and its `DataProvider`;
- `ChartDB`;
- `NewsDataPipeline`.

Loops become methods with invariants, proved against specification
functions. Clocks, the file system, network downloads, the change-point
search and the square root are parameters of the model. Of the database
calls, only ChartDB's insert and update take their failure as a parameter;
every other database call always succeeds in the model (see "Left out").

Where the code and its documentation disagree, the model follows the code:

- `process_csv_file` calls `drop_duplicates()` with its default `keep="first"`.
- In `read_config`, a stocks file that is malformed YAML, or that holds no
  mapping, raises out of `read_config`. Only a missing file and a missing
  `stocks` key are caught (module/utils.py:101-114).
- `find_missing_dates` compares the day with the first ten characters of
  `pubDate`, not with a parsed date.

## Model

| member | source | states |
|---|---|---|
| RiskEngine.Changes | module/analysis/ts/change_point_detection.py:31-32 | A series of N values gives N-1 relative changes. Change t is (p[t+1]-p[t])/(p[t]+1e-9). |
| RiskEngine.ReconstructChanges | module/analysis/ts/change_point_detection.py:31-32 | The first value and the relative changes rebuild the series exactly, so no information is lost. |
| RiskEngine.Features | module/analysis/ts/change_point_detection.py:31-35 | There are N-1 feature pairs. Pair t holds the close return and the volume change from row t to row t+1. |
| RiskEngine.Variance | module/analysis/ts/change_point_detection.py:49-50 | np.std squared (population variance) is never negative. |
| RiskEngine.VarianceOfConstant | module/analysis/ts/change_point_detection.py:49-50 | A segment that does not move has variance 0. |
| RiskEngine.SegmentVolatility | module/analysis/ts/change_point_detection.py:49-51 | sqrt(std_r^2 + std_v^2) of a non-empty segment is non-negative. |
| RiskEngine.BreakpointsOrdered | module/analysis/ts/change_point_detection.py:38-39 | Strictly increasing boundaries that end at the feature count are ordered and bounded by it. |
| RiskEngine.Covered | module/analysis/ts/change_point_detection.py:44-54 | Every index before the last boundary lies in some segment [start, end). |
| RiskEngine.BroadcastVolatility | module/analysis/ts/change_point_detection.py:42-54 | The risk_raw loop gives every index of a non-empty segment that segment's volatility. Empty segments are skipped. Indices past the last boundary stay 0, every value is >= 0, and the result is Raw. |
| RiskEngine.Raw | module/analysis/ts/change_point_detection.py:42-54 | risk_raw as a value has one entry per feature. |
| RiskEngine.RawSegments | module/analysis/ts/change_point_detection.py:42-54 | Raw holds each segment's volatility at every index of that segment, and 0 past the last boundary. |
| RiskEngine.RawCharacterised | module/analysis/ts/change_point_detection.py:42-54 | Any series with those segment values and that zero tail is Raw, so the two properties pin risk_raw down. |
| RiskEngine.FilledIsRaw | module/analysis/ts/change_point_detection.py:42-54 | A series the loop has filled through the last segment has the segment values and the zero tail, and equals Raw. |
| RiskEngine.UniformRawIsFlat | module/analysis/ts/change_point_detection.py:42-54 | When all segments have the same volatility and cover every index, risk_raw is constant. |
| RiskEngine.MinMaxScale | module/analysis/ts/change_point_detection.py:57-61 | Scaled values lie in [0,1] and order is kept. If max-min < 1e-9, every value is 0.5. Otherwise the minimum maps to 0 and the maximum to 1. |
| RiskEngine.RescaleBounds | module/analysis/ts/change_point_detection.py:61 | (raw-min)/(max-min) maps [min,max] into [0,1], with min at exactly 0 and max at exactly 1. |
| RiskEngine.RescaleMonotone | module/analysis/ts/change_point_detection.py:61 | Rescaling by a positive range keeps the order of the values. |
| RiskEngine.Smooth | module/analysis/ts/change_point_detection.py:64-71 | The loop yields the EMA: smoothed[0] = scaled[0] and smoothed[i] = 0.3*scaled[i] + 0.7*smoothed[i-1]. The result equals EmaOf(scaled). The smoothing_alpha argument is ignored. |
| RiskEngine.EmaOf | module/analysis/ts/change_point_detection.py:64-71 | The series built front to back satisfies the EMA recurrence with alpha 0.3. |
| RiskEngine.EmaBounds | module/analysis/ts/change_point_detection.py:64-71 | The EMA is a convex combination, so it stays within the bounds of its input. |
| RiskEngine.EmaUnique | module/analysis/ts/change_point_detection.py:64-71 | The EMA of a series is uniquely determined. |
| RiskEngine.ClipAndScale | module/analysis/ts/change_point_detection.py:74-77 | A value is 0 exactly when its input is below 1e-5; every other value is 100x its input. Inputs in [0,1] give outputs in [0,100]. |
| RiskEngine.Tagged | module/analysis/ts/change_point_detection.py:80-84 | Output row i carries the symbol and the date of input row i+1. |
| RiskEngine.RiskSeries | module/analysis/ts/change_point_detection.py:42-77 | The loop computes exactly RiskOf: raw volatilities, min-max scaled, smoothed, then clipped and scaled. There is one score per feature, each in [0,100]. With uniform segment volatility every score is 50. |
| RiskEngine.RiskOf | module/analysis/ts/change_point_detection.py:42-77 | The score series is clip-and-scale of the EMA of the min-max-scaled Raw series. It has one score per feature in [0,100], and 50 everywhere under uniform volatility. |
| RiskEngine.CalculateRiskScores | module/analysis/ts/change_point_detection.py:6-84 | Missing close/volume is an error. Fewer than 2 rows give no rows. A failing change-point search is an error. Otherwise there are N-1 rows tagged with the symbol and dated like rows 1..N-1. Their scores are RiskOf of the features and breakpoints, lie in [0,100], and are 50 in the degenerate case. The result equals RiskScores. |
| RiskEngine.RiskScores | module/analysis/ts/change_point_detection.py:6-84 | calculate_risk_scores as a value, with the same error cases, row count, symbol, dates, score bounds and degenerate case. |
| RiskEngine.ScoredRows | module/analysis/ts/change_point_detection.py:74-84 | The rows are tagged with the symbol, dated like rows 1..N-1, and scored within [0,100]; under uniform volatility every score is 50. |
| RiskEngine.ScoreRows | module/analysis/ts/change_point_detection.py:42-84 | Once the breakpoints are known, the computed risk series tagged onto rows 1..N-1 is exactly ScoredRows: symbol, dates and a score in [0,100] per row. |
| RiskBatch.ParseDates | scripts/run_calculate_risk_values.py:32-33 | The coerced date parse plus dropna keeps exactly the rows whose date parses, and never adds rows. |
| RiskBatch.CleanRows | scripts/run_calculate_risk_values.py:31-33 | After drop_duplicates over all columns and the date parse, a row is kept exactly when some raw row parses to it. |
| RiskBatch.CleanRowsGuarded | scripts/run_calculate_risk_values.py:31-33 | Cleaning keeps every price away from the -1e-9 divisor. |
| RiskBatch.ProcessCsvFile | scripts/run_calculate_risk_values.py:19-54 | The result equals ScoreOf: a missing or unreadable file, missing columns, no dated rows or a failing engine give no rows. Otherwise the result is the engine's rows for the cleaned frame, one per cleaned row after the first, tagged with the symbol, with scores in [0,100]. |
| RiskBatch.ScoreOf | scripts/run_calculate_risk_values.py:19-54 | process_csv_file as a value: no rows for a file that cannot be scored; otherwise rows tagged with the symbol, with valid dates and scores in [0,100], dated like the cleaned rows after the first. |
| RiskBatch.FolderTasks | scripts/run_calculate_risk_values.py:82-92 | A folder's tasks are exactly its listed files whose header has close and volume. |
| RiskBatch.TaskIff | scripts/run_calculate_risk_values.py:69-92 | A task exists exactly for a listed CSV file in an existing stock directory whose header has close and volume. |
| RiskBatch.SelectTasks | scripts/run_calculate_risk_values.py:69-92 | The nested loops build exactly the specified task list, stock by stock. |
| RiskBatch.ScanFolder | scripts/run_calculate_risk_values.py:82-92 | The inner loop keeps exactly the files whose header is readable and has close and volume. |
| RiskBatch.ScoreTasks | scripts/run_calculate_risk_values.py:96-101 | pool.map keeps task order: result i is ScoreOf of task i, belongs to task i's symbol and has valid dates. |
| RiskBatch.Scored | scripts/run_calculate_risk_values.py:96-101 | There is one result per task. |
| RiskBatch.GroupKeyWitness | scripts/run_calculate_risk_values.py:105-108 | Every group key is the first symbol of some non-empty result. |
| RiskBatch.GroupAddEmpty | scripts/run_calculate_risk_values.py:106-107 | An empty result leaves the grouping unchanged. |
| RiskBatch.GroupAddExisting | scripts/run_calculate_risk_values.py:111-112 | A result whose symbol already has a group is concatenated onto that group. |
| RiskBatch.GroupAddNew | scripts/run_calculate_risk_values.py:109-110 | A result with a new symbol opens a group and joins the key order. |
| RiskBatch.GroupBySymbol | scripts/run_calculate_risk_values.py:104-112 | The df_by_symbol loop yields exactly the specified groups: the non-empty results of each symbol concatenated in task order, with keys in first-seen order. |
| RiskBatch.AddResult | scripts/run_calculate_risk_values.py:104-112 | One pass of the df_by_symbol loop keeps the groups equal to the specified grouping of the results seen so far. |
| RiskBatch.GroupIsSingleSymbol | scripts/run_calculate_risk_values.py:108 | When every result carries one symbol, each group holds only its own symbol's rows. |
| RiskBatch.GroupOfKeyNonEmpty | scripts/run_calculate_risk_values.py:115-117 | No group is empty. |
| RiskBatch.Stamp | scripts/run_calculate_risk_values.py:120-133 | Every row gets model_name "Binseg", analysis_result "Completed" and the one test_date. predict_date equals the row's date, and risk_score equals risk_value. |
| RiskBatch.StampRoundTrip | scripts/run_calculate_risk_values.py:120-133 | A stamped row reads back as the original risk row: stamping drops only the symbol. |
| RiskBatch.OutputPathInjective | scripts/run_calculate_risk_values.py:136-139 | Distinct plain symbols are written to distinct risk_values.csv files. |
| RiskBatch.WriteGroups | scripts/run_calculate_risk_values.py:115-141 | There is one file per group at data/risk/<country>/<symbol>/risk_values.csv, holding that group's stamped rows. With no groups nothing is written. |
| RiskBatch.GroupsFromTasks | scripts/run_calculate_risk_values.py:96-112 | Every group's symbol is a configured stock. Each group is non-empty, holds only that symbol and has valid dates. |
| RiskBatch.RunBatch | scripts/run_calculate_risk_values.py:57-141 | With no tasks nothing is grouped or written. The groups are exactly the per-symbol groups of the scored tasks, each one configured symbol's non-empty rows. Every group is written at its own path, and with plain symbol names each file holds the stamped rows of its group. |
| RiskTable.RoundHalfEven | module/data/database/risk_data_inserter.py:103 | The rounding lands within half a unit of its input. |
| RiskTable.Round4Error | module/data/database/risk_data_inserter.py:103 | round(4) moves a score by at most 0.00005. |
| RiskTable.Round4Idempotent | module/data/database/risk_data_inserter.py:103 | Rounding a rounded score changes nothing. |
| RiskTable.Normalize | module/data/database/risk_data_inserter.py:102-103 | After fillna(0.0) and round(4) every score is present, and nothing else in the row changes. |
| RiskTable.NormalizeRowsIdempotent | module/data/database/risk_data_inserter.py:102-103 | Normalising twice is normalising once. |
| RiskTable.Upsert | module/data/database/risk_data_inserter.py:113-126 | One row preserves the foreign-key invariant: every key's company is in COMPANY_META. |
| RiskTable.UpsertAll | module/data/database/risk_data_inserter.py:105-126 | Applying the rows in frame order preserves the foreign-key invariant. |
| RiskTable.UpsertAllAt | module/data/database/risk_data_inserter.py:105-126 | A key carried by some row of a known company ends with the last such row's values. Every other key is as before. |
| RiskTable.LastWriteWins | module/data/database/risk_data_inserter.py:105-126 | For a repeated key, the last row's ANALYSIS_RESULT and RISK_SCORE persist. |
| RiskTable.UpsertFrame | module/data/database/risk_data_inserter.py:65-84 | Keys that no row carries keep their entry and neither appear nor disappear. |
| RiskTable.UpsertAllIdempotent | module/data/database/risk_data_inserter.py:105-126 | Applying the same rows twice gives the table that applying them once gives. |
| RiskTable.ReapplyUnchanged | module/data/database/risk_data_inserter.py:91-126 | Re-applying an already written (normalised) frame leaves the table unchanged. |
| RiskTable.RiskDataInserter.Select | module/data/database/risk_data_inserter.py:15-16 | The select override does nothing and returns None. |
| RiskTable.RiskDataInserter.Update | module/data/database/risk_data_inserter.py:18-19 | The update override does nothing and returns None. |
| RiskTable.RiskDataInserter.Delete | module/data/database/risk_data_inserter.py:21-22 | The delete override does nothing and returns None. |
| RiskTable.RiskDataInserter.SelectRiskRows | module/data/database/risk_data_inserter.py:24-41 | Returns the entry stored under the four-part key, if any. |
| RiskTable.RiskDataInserter.InsertRiskRow | module/data/database/risk_data_inserter.py:43-63 | A new key of a known company is committed. A duplicate key or an unknown company rolls back, leaving the table unchanged. |
| RiskTable.RiskDataInserter.UpdateRiskRow | module/data/database/risk_data_inserter.py:65-89 | Sets only ANALYSIS_RESULT and RISK_SCORE of the matching key; without a match nothing changes. |
| RiskTable.RiskDataInserter.InsertOrUpdateRisk | module/data/database/risk_data_inserter.py:91-126 | An empty frame, or one missing a required column, changes nothing. Otherwise the scores are normalised in place and the table becomes the upsert of the rows in frame order. |
| StockPriceSync.UnchangedBarsNoUpdates | scripts/update_stock_price.py:120-151 | When the files' prices equal the stored ones at every shared DATE, no UPDATE is issued. |
| StockPriceSync.ParsePrices | scripts/update_stock_price.py:61-63 | Coercing DATE and dropping NaT keeps exactly the rows whose DATE parses. |
| StockPriceSync.CombinedMember | scripts/update_stock_price.py:52-59 | A row is in the de-duplicated concatenation exactly when it is in one of the files. |
| StockPriceSync.CleanPrices | scripts/update_stock_price.py:52-75 | The cleaned frame is sorted by DATE and a permutation of the parsed rows. |
| StockPriceSync.CleanPricesMember | scripts/update_stock_price.py:52-75 | A cleaned row is exactly a parse of some line of some file. |
| StockPriceSync.NewOldPartition | scripts/update_stock_price.py:78-94 | The insert set (DATE > last) and the candidates (DATE <= last) split the cleaned rows. With no stored rows, everything is inserted and there are no candidates. |
| StockPriceSync.LatestFor | scripts/update_stock_price.py:66-73 | None exactly when the symbol has no stored rows. Otherwise the result is a stored DATE that is at least every stored DATE of the symbol. |
| StockPriceSync.RangeRows | scripts/update_stock_price.py:98-101 | Every selected row is the symbol's and lies within [min_date, max_date]. |
| StockPriceSync.RangeRowsKeeps | scripts/update_stock_price.py:98-101 | Every stored row of the symbol in the range is selected. |
| StockPriceSync.MergedMember | scripts/update_stock_price.py:109-116 | A pair is in the inner merge exactly when a candidate and a stored row share its DATE. |
| StockPriceSync.MergedNoStored | scripts/update_stock_price.py:104 | With no stored rows the merge is empty. |
| StockPriceSync.ChangesMember | scripts/update_stock_price.py:120-151 | An UPDATE is issued exactly for a merged pair with some price off by more than the tolerance. |
| StockPriceSync.UpdateIff | scripts/update_stock_price.py:109-151 | A candidate's OHLC is written back exactly when it shares its DATE with a stored row and one of OPEN/HIGH/LOW/CLOSE differs by more than 1e-4. |
| StockPriceSync.StoredVolume | module/data/database/stock_data_inserter.py:75-77 | The stored VOLUME is a non-negative integer: 0 for NaN or negatives, otherwise the truncated value. |
| StockPriceSync.Stored | module/data/database/stock_data_inserter.py:79-91 | There is one record per row, in order, with the company code, DATE, OHLC and stored VOLUME. |
| StockPriceSync.ApplyUpdate | scripts/update_stock_price.py:141-151 | The symbol's rows at the DATE get the new OHLC. VOLUME, keys and every other row are unchanged. |
| StockPriceSync.ApplyUpdatesFrame | scripts/update_stock_price.py:120-151 | A run of UPDATEs changes only prices. Other symbols' rows, and rows at DATEs no update names, stay as they were. |
| StockPriceSync.PlannedDates | scripts/update_stock_price.py:130-151 | Every planned UPDATE carries a candidate's DATE. |
| StockPriceSync.UpdatesMissLater | scripts/update_stock_price.py:90-151 | No planned UPDATE names a DATE later than every candidate's. |
| StockPriceSync.SyncedRowsFrame | scripts/update_stock_price.py:78-151 | One symbol's sync keeps existing rows' keys and VOLUME, leaves other symbols alone, and appends exactly the new rows. |
| StockPriceSync.SyncedKeepsOld | scripts/update_stock_price.py:87-151 | Stored rows keep key and VOLUME, and other symbols' rows are untouched. |
| StockPriceSync.SyncedAppendsNew | scripts/update_stock_price.py:77-85 | The appended rows are exactly the stored new rows; no UPDATE rewrites them. |
| StockPriceSync.UpdatesMissAdded | scripts/update_stock_price.py:77-151 | Rows inserted after every candidate's DATE pass through the UPDATEs unchanged. |
| StockPriceSync.UntouchedTail | scripts/update_stock_price.py:141-151 | UPDATEs naming no appended row's DATE leave the appended rows as they are. |
| StockPriceSync.StockDataInserter.SelectLast | scripts/update_stock_price.py:66-73 | Returns the newest stored DATE of the symbol, or None when it has no rows. |
| StockPriceSync.StockDataInserter.SelectRange | scripts/update_stock_price.py:98-101 | Returns the symbol's rows within the DATE range. |
| StockPriceSync.StockDataInserter.InsertStockPrice | module/data/database/stock_data_inserter.py:64-103 | Appends one record per row (the corrected column reading). |
| StockPriceSync.StockDataInserter.UpdatePrice | scripts/update_stock_price.py:141-151 | Updates only OPEN/HIGH/LOW/CLOSE of the rows at the symbol and DATE. |
| StockPriceSync.StockDataInserter.Close | scripts/update_stock_price.py:153-154 | Closes the connection and leaves the rows unchanged. |
| StockPriceSync.WalkMerged | scripts/update_stock_price.py:120-151 | The loop issues the UPDATEs of the changed pairs, in merge order. |
| StockPriceSync.SyncSymbol | scripts/update_stock_price.py:65-151 | The table becomes exactly the specified synced table for the symbol. |
| StockPriceSync.ReadParts | scripts/update_stock_price.py:53-58 | Fails exactly when some globbed file cannot be read. Otherwise part f is file f. |
| StockPriceSync.SyncedRowsCodes | scripts/update_stock_price.py:83-85 | Every appended row belongs to the synced symbol. |
| StockPriceSync.UpdateStockPriceMain | scripts/update_stock_price.py:19-154 | The inserter is always closed. The table and the completion flag are exactly SyncedAll: each configured symbol with .csv files is synchronised in turn, and the first one with an unreadable file ends the run with false. |
| StockPriceSync.SyncStock | scripts/update_stock_price.py:38-151 | One symbol's turn gives exactly SyncedOne: skipped without folder or files, false on an unreadable file, otherwise synchronised. |
| StockPriceSync.SyncedAllCompletes | scripts/update_stock_price.py:38-59 | The run completes exactly when no configured symbol has an unreadable .csv file. |
| StockPriceSync.SyncedAllStops | scripts/update_stock_price.py:53-54 | Once a read has raised, the later symbols change nothing. |
| StockPriceSync.SyncedAllFrame | scripts/update_stock_price.py:38-151 | Over the whole run stored rows keep key and VOLUME, unconfigured symbols are untouched, and appended rows belong to configured symbols. |
| StockPriceSync.InsertColumnsAsWritten | module/data/database/stock_data_inserter.py:75-90 | Succeeds exactly when every column the insert reads is present. Otherwise the KeyError names a missing column. |
| StockPriceSync.UpperIsNeverVolume | scripts/update_stock_price.py:55 | No upper-cased header name is "volume". |
| StockPriceSync.UpperedFrameRaises | scripts/update_stock_price.py:55 | Any upper-cased header makes insert_stock_price raise KeyError on "volume". |
| StockPriceSync.LowerHeaderAccepted | module/data/database/stock_data_inserter.py:64-90 | The lower-case header passes the insert's column reads. |
| ProviderPipeline.FileName | module/data/providers/core.py:105-107 | f"{month_start}_chunk{n}.csv" is one path component. |
| ProviderPipeline.FilePathSameMonth | module/data/providers/core.py:105-107 | Dates in the same month with the same chunk number share a file. |
| ProviderPipeline.FilePathInjective | module/data/providers/core.py:105-107 | Different months or chunk numbers never share a file, and every chunk path is a .csv file. |
| ProviderPipeline.RecordsOfRecs | module/data/providers/core.py:130-135 | Rows written as CSV records read back unchanged, with or without a header. |
| ProviderPipeline.WriteOneWellFormed | module/data/providers/core.py:129-135 | Appending a chunk keeps every file as one header followed by records: a header is written only to a new file. |
| ProviderPipeline.WriteOneRows | module/data/providers/core.py:129-135 | Appending a chunk adds exactly its rows to what is read back. |
| ProviderPipeline.ChunksBounded | module/data/providers/core.py:123-125 | Every chunk is non-empty and has at most chunk_size rows. |
| ProviderPipeline.ChunksConcat | module/data/providers/core.py:123-125 | The chunks concatenated are the data. |
| ProviderPipeline.ChunksFrom | module/data/providers/core.py:123-125 | Every row of every chunk comes from the data. |
| ProviderPipeline.ChunksAllValid | module/data/providers/core.py:123-127 | With valid timestamps every chunk is non-empty and starts with a valid date. |
| ProviderPipeline.WriteChunksWellFormed | module/data/providers/core.py:120-137 | Saving keeps the store well formed. |
| ProviderPipeline.WriteChunksRows | module/data/providers/core.py:120-137 | Saving chunks adds exactly their rows to what is read back. |
| ProviderPipeline.SavedRows | module/data/providers/core.py:120-137 | _save_data adds exactly the saved rows (as a multiset) to the store's rows. |
| ProviderPipeline.SaveTwiceSameRows | module/data/providers/data_pipeline.py:87-90 | Saving the same rows a second time leaves the set of rows get_all_data loads unchanged. |
| ProviderPipeline.SavedValid | module/data/providers/core.py:120-137 | Saving rows with valid timestamps keeps the store well formed and every stored timestamp valid. |
| ProviderPipeline.AsWrittenDropsEqualBars | module/data/providers/core.py:152 | As written, two bars at different times with equal values collapse to one row. |
| ProviderPipeline.AllData | module/data/providers/core.py:139-155 | get_all_data (corrected) is sorted by time, has no repeated row, and holds exactly the stored rows. |
| ProviderPipeline.DataRangeMember | module/data/providers/core.py:157-169 | A row is in the range exactly when it is loaded and within both given bounds (inclusive). A missing bound does not filter. |
| ProviderPipeline.DataRangeSorted | module/data/providers/core.py:157-169 | The range keeps the loaded time order. |
| ProviderPipeline.StoreWithoutWellFormed | module/data/providers/core.py:186-188 | Removing one directory's files keeps the store well formed. |
| ProviderPipeline.CleanedStoreFiles | module/data/providers/core.py:177-191 | A file survives cleaning exactly when its directory is not named like a date before the cutoff. Surviving files are untouched. |
| ProviderPipeline.CleanedStoreWellFormed | module/data/providers/core.py:177-191 | Cleaning keeps the store well formed. |
| ProviderPipeline.Loaded | module/data/providers/core.py:139-155 | Loaded rows are sorted and distinct, empty without the base directory, and otherwise exactly the rows of the stored .csv files. |
| ProviderPipeline.LoadedTimesValid | module/data/providers/core.py:139-155 | Rows loaded from a valid store have valid timestamps. |
| ProviderPipeline.LatestDate | module/data/providers/core.py:193-201 | None exactly when nothing is loaded. Otherwise the result is the date of a row no other row is later than. |
| ProviderPipeline.FreshTimesValid | module/data/providers/data_pipeline.py:50-60 | Kept fetched rows have valid timestamps when the provider's rows do. |
| ProviderPipeline.FreshMember | module/data/providers/data_pipeline.py:50-60 | A fetched row is kept exactly when it is later than every loaded row; all rows are kept when nothing is loaded. |
| ProviderPipeline.Trimmed | module/data/providers/data_pipeline.py:64-72 | The cache is sorted by time and holds no row older than the cutoff. |
| ProviderPipeline.TrimmedMember | module/data/providers/data_pipeline.py:64-72 | A row stays in the cache exactly when it is one of the rows and not older than now - cache_days. |
| ProviderPipeline.SavedTwiceSnoc | module/data/providers/data_pipeline.py:81-102 | One more realtime round adds its saves at the end of the save log. |
| ProviderPipeline.DataProvider.GetData | module/data/providers/data_pipeline.py:48 | get_data returns the feed for the current start_date. |
| ProviderPipeline.ProviderDataPipeline.SaveData | module/data/providers/core.py:120-137 | The store becomes the chunks written in order. Cache, directories and date are unchanged. |
| ProviderPipeline.ProviderDataPipeline.FetchData | module/data/providers/data_pipeline.py:40-77 | Without a provider nothing changes and nothing is returned. Otherwise the result is the fetched rows later than every stored row. They are saved only when non-empty, and then the cache becomes the loaded rows plus them, sorted and trimmed to now - cache_days. |
| ProviderPipeline.ProviderDataPipeline.KeepFetched | module/data/providers/data_pipeline.py:62-73 | Saves the new rows and sets the cache to the trimmed, sorted union. |
| ProviderPipeline.ProviderDataPipeline.UpdateToLatest | module/data/providers/core.py:203-222 | Without a provider nothing changes. With no stored data no start date is set and there is one fetch of everything, saved when non-empty. Otherwise the walk is CaughtUp from the latest stored date: consecutive start days, every fetch but the last non-empty, ending at today or at the first empty fetch. Fetch k keeps the feed's rows for day k newer than the store before it and saves them, giving the next store; the first store is the old one and the last is the final one. The provider ends at the last start day. |
| ProviderPipeline.ProviderDataPipeline.CatchUp | module/data/providers/core.py:214-222 | The loop sets consecutive start days, one fetch each. Every fetch but the last is non-empty, and the walk ends at today or at the first empty fetch. Each fetch is what fetch_data keeps of the feed for its day against the store left by the previous one, and the store ends as the last save leaves it. |
| ProviderPipeline.ProviderDataPipeline.WalkDays | module/data/providers/core.py:215-222 | The while loop ends at today or right after the first empty fetch; its start days are consecutive, its fetches follow the store log, and all but a stopping last fetch are non-empty. |
| ProviderPipeline.ProviderDataPipeline.CatchUpPass | module/data/providers/core.py:216-218 | One pass adds the next day, its fetch and the store after it to the walk. |
| ProviderPipeline.ProviderDataPipeline.FetchAll | module/data/providers/core.py:210-212 | With nothing stored, one fetch of the provider's rows at its current start date, saved when non-empty. |
| ProviderPipeline.CaughtUpAtExit | module/data/providers/core.py:215-222 | Leaving the loop, at today or after an empty fetch, means the walk is caught up. |
| ProviderPipeline.DayFetchesSnoc | module/data/providers/core.py:216-218 | One more fetch step extends the walk's fetch and store log. |
| ProviderPipeline.FetchStepFunctional | module/data/providers/data_pipeline.py:40-77 | fetch_data followed by the save is a function of the provider's rows and the store: the kept rows and the new store are determined. |
| ProviderPipeline.WalkStepAgrees | module/data/providers/core.py:215-218 | Two walks at the same store and the same step fetch the same day, keep the same rows and reach the same store. |
| ProviderPipeline.WalkPrefix | module/data/providers/core.py:215-222 | Two walks from the same store and first day agree on every step both made. |
| ProviderPipeline.WalkLength | module/data/providers/core.py:215-222 | A caught-up walk is never a proper prefix of another caught-up walk from the same start. |
| ProviderPipeline.WalkDetermined | module/data/providers/core.py:203-222 | update_to_latest's days, fetches and stores are determined by the feed, the starting store, the latest stored date and today. |
| ProviderPipeline.ProviderDataPipeline.RealtimePass | module/data/providers/data_pipeline.py:81-95 | One round adds its fetch and the store after it to the log, and its double save to the save log. |
| ProviderPipeline.RealtimeFetchesSnoc | module/data/providers/data_pipeline.py:89-95 | One more round extends the realtime fetch and store log. |
| ProviderPipeline.DayStepsSnoc | module/data/providers/core.py:215-217 | The day after the last start keeps the start dates consecutive from the latest stored date. |
| ProviderPipeline.ProviderDataPipeline.FetchDay | module/data/providers/core.py:216-218 | Sets start_date to the day and returns what fetch_data keeps of the feed for that day; the store becomes the store with those rows saved (unchanged when there are none). |
| ProviderPipeline.ProviderDataPipeline.constructor | module/data/providers/core.py:51-64 | The cache starts as what _load_cache reads exactly when the provider is None, and empty otherwise. |
| ProviderPipeline.ProviderDataPipeline.FetchStart | module/data/providers/data_pipeline.py:104-116 | Without a provider it raises and the cache is unchanged. With no stored data the cache becomes the provider's data. Otherwise the cache is the stored data and start_date becomes its newest timestamp. Nothing is saved. |
| ProviderPipeline.ProviderDataPipeline.FetchAndSaveRealtime | module/data/providers/data_pipeline.py:79-102 | Without a provider it raises before any round. With single_fetch there is exactly one round, otherwise one per clock reading. Each non-empty fetch is saved twice, and the current date is the last reading's. Round k keeps the feed's rows newer than the store before it and saves them twice, giving the next store; the first store is the old one and the last is the final one. |
| ProviderPipeline.ProviderDataPipeline.Round | module/data/providers/data_pipeline.py:82-95 | A round sets the current date and fetches. Non-empty new rows are saved a second time after fetch_data has saved them, and the store becomes the store with them saved twice. |
| ProviderPipeline.ProviderDataPipeline.CleanOldData | module/data/providers/core.py:177-191 | Only directories named like a date before today - days lose their files and disappear. Other names are ignored, and the cache is unchanged. |
| ProviderPipeline.SaveChunks | module/data/providers/core.py:120-137 | The loop appends chunk k to the file of its month with chunk number k. |
| ProviderPipeline.RemoveExpired | module/data/providers/core.py:180-191 | The walk yields exactly the specified cleaned store and kept directories. |
| ConfigUtils.Get | module/utils.py:64 | Indexing succeeds exactly on a mapping holding the key. Otherwise it raises KeyError for a mapping and TypeError for anything else. |
| ConfigUtils.SetKey | module/utils.py:86 | Assignment into a mapping updates exactly that key. |
| ConfigUtils.PopKey | module/utils.py:67-69 | pop removes exactly that key. |
| ConfigUtils.CollectFailureSticks | module/utils.py:184-203 | Once an item raises, the loop raises that same exception. |
| ConfigUtils.CollectMember | module/utils.py:184-203 | Everything a successful loop collects was produced by one of its items. |
| ConfigUtils.Ancestors | module/utils.py:29-37 | The walk starts at the given path. |
| ConfigUtils.FindProjectRoot | module/utils.py:27-37 | Returns the specified project root when there is one, and raises RootNotFound otherwise. |
| ConfigUtils.ProjectRootNone | module/utils.py:27-37 | The walk fails exactly when no ancestor-or-self holds .git. |
| ConfigUtils.ProjectRootFirst | module/utils.py:27-37 | On success the result is the nearest ancestor-or-self holding .git. |
| ConfigUtils.WithBasePath | module/utils.py:84-95 | A successful base_path step yields a mapping. |
| ConfigUtils.ReadConfig | module/utils.py:40-117 | A missing file raises ConfigNotFound and bad YAML raises YamlError. With no root the error is RootNotFound; otherwise the result is the reshaped config. |
| ConfigUtils.SectionsOfMapping | module/utils.py:56-82 | For a mapping config: strategy loses its nested data_pipelines, algorithm is copied, and data_pipelines comes from the top level or from strategy, with a falsy value becoming {}. |
| ConfigUtils.SectionsPipelinesTruthy | module/utils.py:79-82 | The data_pipelines section is truthy or is the empty mapping. |
| ConfigUtils.TopLevelPipelinesWin | module/utils.py:75-77 | A truthy top-level data_pipelines overrides the nested one. |
| ConfigUtils.SectionsOfScalar | module/utils.py:63 | A YAML number, boolean or null config raises TypeError. |
| ConfigUtils.SectionsOfString | module/utils.py:62-82 | A string config is searched by substring: a section name in it raises TypeError, and otherwise all three sections are empty. |
| ConfigUtils.StrategyStringRaises | module/utils.py:63-69 | A string strategy containing data_pipelines raises AttributeError (str has no pop). |
| ConfigUtils.BasePathRule | module/utils.py:84-95 | base_path becomes normpath(join(root, path)) when it is configured and root/data otherwise. A non-string path raises, and the other keys are kept. |
| ConfigUtils.StocksRule | module/utils.py:97-114 | stocks changes only to the stocks key of a loadable stocks file that holds a mapping. Other keys are kept, and failures are TypeError or YAML errors. |
| ConfigUtils.ReshapedHasBasePath | module/utils.py:84-95 | Every returned config has a data_pipelines mapping with a string base_path. |
| ConfigUtils.CreateDataProviders | module/utils.py:139-206 | The loops build exactly the specified providers, or raise the same exception. |
| ConfigUtils.ProviderForItem | module/utils.py:184-203 | One item yields the specified provider, or nothing when it has neither symbol nor query. |
| ConfigUtils.BuildParams | module/utils.py:193-199 | provider_params maps every parameter key to its resolved value. |
| ConfigUtils.ParamsOfSnoc | module/utils.py:194-199 | One more key adds its resolved value. |
| ConfigUtils.MakeProviders | module/utils.py:183-203 | Providers come out in item order, stopping at the first item that raises. |
| ConfigUtils.NameRequired | module/utils.py:143-145 | A missing name raises before anything else is looked at. |
| ConfigUtils.ItemsRequired | module/utils.py:150-156 | Having neither stocks nor companies raises. |
| ConfigUtils.ProvidersOfMappings | module/utils.py:183-203 | For mapping items, items with neither symbol nor query are skipped, symbol wins over query, and providers come out in item order. |
| ConfigUtils.ResolvePrecedence | module/utils.py:194-199 | Each parameter takes the item value, else the pipeline default, else None. An end_date of "TODAY" becomes a date string that parses back to today. |
| ConfigUtils.ParamsDomain | module/utils.py:167-199 | Each provider gets exactly the parameter keys its name selects. |
| ConfigUtils.ProvidersOfSameDefaults | module/utils.py:193-199 | Pipelines that agree on the parameter defaults give the same providers. |
| ConfigUtils.CompaniesIgnoredWithStocks | module/utils.py:150-153 | When stocks is present, companies is never read. |
| ConfigUtils.FoldAppend | module/utils.py:421-426 | Assigning two runs of pairs is assigning the first run, then the second. |
| ConfigUtils.CreateSymbolMapper | module/utils.py:419-427 | The loops build exactly the specified mapper, or raise the same exception. |
| ConfigUtils.AddConfig | module/utils.py:422-426 | One config adds the pairs of its data_pipelines stocks list, if it has one. |
| ConfigUtils.AddEntries | module/utils.py:424-426 | The entry loop assigns symbol to full_name for each complete entry. |
| ConfigUtils.FoldKeys | module/utils.py:424-426 | The mapper's keys are exactly the symbols of the pairs. |
| ConfigUtils.FoldLastWins | module/utils.py:424-426 | A later entry overrides an earlier one: each symbol maps to its last full_name. |
| ConfigUtils.PairFromEntry | module/utils.py:422-426 | Every pair comes from a stocks entry that has both symbol and full_name. |
| ConfigUtils.MapperFromCompleteEntries | module/utils.py:419-427 | The mapper holds only symbols of complete entries, each mapped to the full_name of such an entry. |
| ChatHistory.SortedHistory | module/analysis/llm/utils.py:42-49 | The history sorted by timestamp, to the microsecond, is a permutation of it in ascending order. |
| ChatHistory.LastN | module/analysis/llm/utils.py:52 | The window (corrected) is the last min(n, len) entries, and none when n <= 0. |
| ChatHistory.NegativeWindowDropsFirst | module/analysis/llm/utils.py:52 | For n < 0 the slice as written drops the first -n entries, where the corrected window keeps none. |
| ChatHistory.ZeroWindowKeepsAll | module/analysis/llm/utils.py:52 | As written, n = 0 keeps the whole history, where the corrected window keeps none. |
| ChatHistory.WindowsAgreeForPositive | module/analysis/llm/utils.py:52 | For n > 0 the slice as written and the corrected window agree. |
| ChatHistory.RecentAreLatest | module/analysis/llm/utils.py:42-52 | The window is sorted, comes from the history, and nothing left out is later than anything kept. |
| ChatHistory.FormatRecentChatHistory | module/analysis/llm/utils.py:40-67 | The loop produces one message per known-speaker entry of the corrected window, in window order. |
| ChatHistory.FormattedLength | module/analysis/llm/utils.py:52-65 | There are never more messages than the window holds, nor more than n. |
| ChatHistory.MessageFromEntry | module/analysis/llm/utils.py:55-65 | A message appears exactly when a window entry with a known speaker has its content. The role is user exactly for speaker "user". |
| ChatHistory.UnknownTakesASlot | module/analysis/llm/utils.py:52-63 | An unknown speaker in the window is dropped after the cut, so an older user entry does not take its place. |
| OmissionNews.Prefix10 | data/news/omission_news.py:35 | [:10] is the first ten characters, or the whole string when it is shorter. |
| OmissionNews.NoPubDateCoversNothing | data/news/omission_news.py:35 | Items without pubDate never cover a day. |
| OmissionNews.DaysFromNumbers | data/news/omission_news.py:29 | date_range gives one day per day number from start to end inclusive, in ascending order. |
| OmissionNews.DaysFromComplete | data/news/omission_news.py:29 | Every valid day between start and end is in the range. |
| OmissionNews.DaysFromIff | data/news/omission_news.py:29 | A day is in the range exactly when it is valid and between start and end. |
| OmissionNews.FindMissingDates | data/news/omission_news.py:6-42 | A missing report gives []. Otherwise the result is the rendering of each day in the range that no item covers, in order. |
| OmissionNews.AnyCovers | data/news/omission_news.py:33-37 | The inner loop finds exactly whether some item covers the day. |
| OmissionNews.MissingIff | data/news/omission_news.py:29-39 | A string is returned exactly when it renders a day of the range that no item covers. |
| OmissionNews.RenderedInOrder | data/news/omission_news.py:30 | Rendering keeps the order of days and parses back. |
| OmissionNews.MissingAscending | data/news/omission_news.py:29-39 | The returned dates are strictly ascending and so duplicate-free. |
| ChartDb.RecordsOf | module/data/database/aggregated_dataset_db_refac.py:66-80 | There is one record per row, with id = index + 1, the row's date and OHLCV, NASDAQ/EQUITY/US, and asset_name = symbol. |
| ChartDb.Updated | module/data/database/aggregated_dataset_db_refac.py:111-117 | Only rows matching WHERE change, and only the listed columns; identity columns stay. |
| ChartDb.LastDate | module/data/database/aggregated_dataset_db_refac.py:151-155 | None exactly when the symbol has no row. Otherwise the result is a stored date at least every date of the symbol. |
| ChartDb.LastDateMonotone | module/data/database/aggregated_dataset_db_refac.py:143-155 | As rows are only added, a symbol's last date never goes back. |
| ChartDb.BatchesCover | module/data/database/aggregated_dataset_db_refac.py:167-171 | The batches concatenated are the data. |
| ChartDb.BatchAt | module/data/database/aggregated_dataset_db_refac.py:168-170 | Batch k is the slice [k*size, (k+1)*size), cut at the end. |
| ChartDb.BatchesSlices | module/data/database/aggregated_dataset_db_refac.py:168-170 | The batches are consecutive, non-empty, and at most batch_size long. |
| ChartDb.BatchesCount | module/data/database/aggregated_dataset_db_refac.py:168 | There are ceil(len / batch_size) batches. |
| ChartDb.InsertAllStep | module/data/database/aggregated_dataset_db_refac.py:168-171 | The first batch is inserted first, then the rest. |
| ChartDb.InsertAllAppends | module/data/database/aggregated_dataset_db_refac.py:158-172 | The batches only append records built from their rows. |
| ChartDb.NewRowsIff | module/data/database/aggregated_dataset_db_refac.py:211-217 | A file row is inserted exactly when it occurs in the file and is after the last date (every row when there is none). |
| ChartDb.NewRowAfter | module/data/database/aggregated_dataset_db_refac.py:216-217 | A kept row is strictly after the last date. |
| ChartDb.NewRowsComplete | module/data/database/aggregated_dataset_db_refac.py:211-217 | Every file row after the last date is kept. |
| ChartDb.NewRowLabel | module/data/database/aggregated_dataset_db_refac.py:211 | A kept row carries the label of the last copy of that row, compared over all its cells, in the file. |
| ChartDb.NewRowsDistinct | module/data/database/aggregated_dataset_db_refac.py:211 | No row, compared over all its cells, is kept twice. |
| ChartDb.NewRowsNotBefore | module/data/database/aggregated_dataset_db_refac.py:213-217 | A kept row's day is on or after the stored last date. |
| ChartDb.LastDayPassesAgain | module/data/database/aggregated_dataset_db_refac.py:151-217 | A row later on the stored last day itself still passes the filter. |
| ChartDb.NewRowsAntitone | module/data/database/aggregated_dataset_db_refac.py:216-217 | A later last date keeps a subset of the rows. |
| ChartDb.FileImportedAppends | module/data/database/aggregated_dataset_db_refac.py:210-223 | Importing a file only appends records built from its new rows. |
| ChartDb.InsertAllAccepted | module/data/database/aggregated_dataset_db_refac.py:158-172 | When the database accepts every insert, the batches add exactly the records of all their rows, in order. |
| ChartDb.FileImportedAccepted | module/data/database/aggregated_dataset_db_refac.py:210-223 | When the database accepts every insert, a file adds exactly the records of its new rows, in order. |
| ChartDb.FromSymbolDirEarlier | module/data/database/aggregated_dataset_db_refac.py:202-223 | A record new against a later table is also new against an earlier one. |
| ChartDb.ChartDB.Insert | module/data/database/aggregated_dataset_db_refac.py:50-100 | An empty frame changes nothing. Otherwise the records are committed together or rolled back together. |
| ChartDb.ChartDB.Update | module/data/database/aggregated_dataset_db_refac.py:102-120 | An empty dict or a failed statement changes nothing. Otherwise the table is the updated table. |
| ChartDb.ChartDB.BatchInsert | module/data/database/aggregated_dataset_db_refac.py:158-172 | There is one insert per batch. A zero step raises before any insert, and a negative one inserts nothing. |
| ChartDb.ChartDB.ImportFile | module/data/database/aggregated_dataset_db_refac.py:210-223 | A file's new rows are inserted in batches of 1000, or nothing when there are none. |
| ChartDb.ChartDB.ImportSymbol | module/data/database/aggregated_dataset_db_refac.py:196-225 | The table becomes exactly SymbolImported: the last date is read once, then every listed .csv file is imported in listing order. It only appends records from those files' rows after the symbol's last date. |
| ChartDb.ChartDB.ImportFiles | module/data/database/aggregated_dataset_db_refac.py:202-223 | The file loop makes the table exactly FilesImported over the listed files. |
| ChartDb.FilesImportedAppends | module/data/database/aggregated_dataset_db_refac.py:202-223 | The file loop only appends records built from new rows of its .csv files. |
| ChartDb.SymbolImportedGrows | module/data/database/aggregated_dataset_db_refac.py:196-223 | A symbol directory only appends records from its .csv files' rows after the symbol's last date. |
| ChartDb.ChartDB.ImportAll | module/data/database/aggregated_dataset_db_refac.py:175-225 | The table becomes exactly CountriesImported: KOR then USA, each symbol directory in listing order. main only appends records from .csv files under those directories, and only rows after the symbol's last date at the start. |
| ChartDb.ImportedFromSymbol | module/data/database/aggregated_dataset_db_refac.py:190-225 | What one symbol directory adds is what main may add. |
| NewsPipeline.Renumber | module/data/providers/news_pipeline.py:40 | ignore_index numbers every row by its position and changes nothing else. |
| NewsPipeline.Outcomes | module/data/providers/news_pipeline.py:82-89 | No recorded download is one that raised. |
| NewsPipeline.NewsDataPipeline.FetchData | module/data/providers/news_pipeline.py:21-48 | A non-NaverNews provider returns an empty frame. An empty fetch leaves news_link.csv alone. Otherwise the CSV becomes the merge, the return is the new batch, and contents.json is untouched. |
| NewsPipeline.NewsDataPipeline.FetchArticleContent | module/data/providers/news_pipeline.py:50-133 | With no CSV, or no row lacking content, nothing is written. Otherwise contents.json gets every download's entry and the CSV keeps the metadata only. |
| NewsPipeline.Download | module/data/providers/news_pipeline.py:76-89 | The futures loop records exactly the downloads that did not raise. |
| NewsPipeline.MergedLinksDistinct | module/data/providers/news_pipeline.py:38-46 | No two rows of news_link.csv share an originallink. |
| NewsPipeline.MergedIdsArePositions | module/data/providers/news_pipeline.py:40-46 | A merged row's article ID is its position in the combined frame. |
| NewsPipeline.MergedKeepsIff | module/data/providers/news_pipeline.py:40-41 | A combined row survives exactly when no later row has its originallink. |
| NewsPipeline.MergedKeepsFetched | module/data/providers/news_pipeline.py:40-41 | Every article of the new batch is stored, numbered after the old rows: the newest row wins. |
| NewsPipeline.IdsShift | module/data/providers/news_pipeline.py:39-46 | Article IDs are not stable: a re-fetched article leaves a gap that the next merge renumbers. |
| NewsPipeline.RefetchDropsOlder | module/data/providers/news_pipeline.py:40-41 | A re-fetched article replaces its older row. |
| NewsPipeline.NewLinkKeepsAll | module/data/providers/news_pipeline.py:40-41 | A new link drops nothing, and the rows are renumbered 0, 1, 2. |
| NewsPipeline.EveryRowRefetched | module/data/providers/news_pipeline.py:64-68 | The CSV keeps no content, so every row is fetched again on the next call. |
| NewsPipeline.OutcomesMember | module/data/providers/news_pipeline.py:73-89 | A download is recorded for a row exactly when the row lacks content and its future did not raise. |
| NewsPipeline.OutcomesIdsDistinct | module/data/providers/news_pipeline.py:74-81 | With distinct article IDs, each row is downloaded at most once. |
| NewsPipeline.ApplyKeepsOthers | module/data/providers/news_pipeline.py:100-120 | A key no download writes keeps its old entry, or stays absent. |
| NewsPipeline.ApplySets | module/data/providers/news_pipeline.py:100-120 | A download's key holds its entry: the content, or "" plus the error, with the CSV's pubDate and title. |
| NewsPipeline.ResultFromRow | module/data/providers/news_pipeline.py:68-87 | Every recorded download is of a CSV row lacking content, fetched by its originallink. |
| NewsPipeline.ContentAfterFetch | module/data/providers/news_pipeline.py:92-120 | A row lacking content whose download completed gets that entry. Any other row's entry is as before. |
| NewsPipeline.DistinctKeys | module/data/providers/news_pipeline.py:101 | Different article IDs are different contents.json keys. |
| NewsPipeline.OtherIdsKept | module/data/providers/news_pipeline.py:91-120 | Entries for IDs not in the CSV are kept. |

## Left out

- File I/O, FileLock, logging, YAML/JSON/CSV parsing and os.walk/glob/listdir are not modelled. File contents and listings are parameters; only the files' structure is modelled.
- The ruptures Binseg search is a parameter. Its promise (strictly increasing boundaries ending at the feature count) is a precondition.
- np.sqrt is an abstract non-negative function.
- Floats are `real`: rounding, NaN and IEEE effects are not modelled, apart from the NaN score and NaN volume that the source fills explicitly.
- Process and thread pools are sequential, order-preserving loops:
  - `Pool.map`;
  - the futures loop in `fetch_article_content`, where completion order is taken to be the order of the rows to fetch;
  - the stop event of `fetch_and_save_realtime`, which becomes a finite list of clock readings.
- Clocks (`datetime.now`, `pd.Timestamp.now`) are parameters.
- ChartDB's insert and update take their failure as a parameter (`rejects`, `fails`), and a failed statement is rolled back. The other database classes never fail in the model:
- StockPriceSync.StockDataInserter.SelectLast: a failing SELECT returns None in the source (module/data/database/stock_data_inserter.py:27-29), which update_stock_price.py:67-73 reads as an empty table, so every cleaned row is inserted again. The model's select always succeeds.
- StockPriceSync.StockDataInserter.SelectRange: a failing SELECT returns None, and then no UPDATE is issued for the symbol. The model's select always succeeds.
- StockPriceSync.StockDataInserter.InsertStockPrice: a failing INSERT is rolled back and leaves the table unchanged. The model's insert always succeeds.
- StockPriceSync.StockDataInserter.UpdatePrice: a failing UPDATE is rolled back and leaves the table unchanged. The model's update always succeeds.
- RiskTable.RiskDataInserter.SelectRiskRows: a failing SELECT returns None (risk_data_inserter.py:39-41). An existing key is then sent to INSERT, which fails on the duplicate key and is rolled back, so the entry keeps its old values. The model's select always succeeds, and INSERT fails only on an unknown company.
- The `execute_query` call of `get_last_date` is not modelled: a failing query returns [] and so None, which inserts every row.
- ChartDB `select`, `delete` and `close` are not modelled: they only issue SQL.
- `load_module` and its import failures are a parameter of `ConfigUtils.CreateDataProviders` (`resolves`: whether the module and class import).
- ConfigUtils.CreateDataProviders: the call `provider_class(symbol_or_query, **provider_params)` (module/utils.py:199) always succeeds in the model. A constructor that raises for one item, which ends the whole call in the source, is not modelled.
- `load_data`, `process_data`, `create_pipelines`, `parallel_process`, `run_data_pipeline`, `create_strategy` and `prepare_data` in module/utils.py are not part of this model. They are thread-pool orchestration and pandas resampling.
- `_load_date_range`, `_load_cache`, `get_latest_n_days`, `save` and `load` of the pipeline base class are not modelled: they are thin wrappers over the modelled operations.
- Python key equality across types (1 == True == 1.0) is not modelled in `create_symbol_mapper`'s dict. Keys compare as values of distinct types, and the dict's insertion order is not modelled.
- Pandas sorts are modelled as stable sorts; pandas' default quicksort may order equal timestamps differently.
- `clean_old_data` removes only files directly inside an expired directory. `os.rmdir` of a directory that still holds sub-directories, which raises in the source, is not modelled.
- ProviderPipeline.Expired: only zero-padded YYYY-MM-DD directory names count as dates. strptime also accepts unpadded month and day numbers, so such names are kept where the source removes them.
- ProviderPipeline.ProviderDataPipeline.UpdateToLatest: the contract states the fetched rows and stores of the walk, not the cache after each step; FetchData states the cache for each fetch.
- ProviderPipeline.ProviderDataPipeline.constructor: `_load_cache` (the chunk files of the last cache_days, read against the clock) is not modelled; what it reads is the constructor's `recent` parameter.
- Timestamps (`Instant`) have one-second resolution. Where sub-second order matters (chat timestamps) the microseconds are a separate field; the stock, chart and provider timestamps keep only seconds, so two rows within one second compare equal there.
- ChatHistory.FormatRecentChatHistory: each entry holds an already parsed timestamp, so `datetime.fromisoformat`'s ValueError on a malformed string, the TypeError of comparing naive with aware datetimes, and the KeyError of an entry without timestamp or speaker are not modelled.
- OmissionNews.FindMissingDates: the start and end dates are already parsed `Date`s. The source passes strings to `pd.date_range` (data/news/omission_news.py:29), which raises on an unparseable date; that error is not modelled.
- OmissionNews.FindMissingDates: a report item holds `pubDate` as an optional string, so a non-string `pubDate` (whose slice raises or compares differently) and a report entry that is not a mapping are not modelled.
- StockPriceSync.UpdateStockPriceMain: a CSV file without a DATE column raises KeyError at update_stock_price.py:61 and ends the run; the model's rows always carry a DATE cell.
- ChartDb.NewRowLabel: a CSV row carries both the date text and its parsed date; the model takes the parse to be a function of the text, so rows that agree in every cell agree in their date. The parse itself is not a parameter.
- RiskBatch.SelectTasks: a file counts as readable or not as a whole. The source reads only the header (`nrows=0`, scripts/run_calculate_risk_values.py:84), so a file with a good header and an unreadable body is a task there, and scores an empty frame; here it is no task. The task list differs; the grouped risk rows do not.
- RiskBatch.RunBatch: `datetime.now()` is read once per group when the files are stamped (run_calculate_risk_values.py:122); the model stamps every group with the same `today`, so a run that crosses midnight is not modelled.
- ProviderPipeline.ProviderDataPipeline.FetchAndSaveRealtime: the contract states the fetched rows, the save log and the store after each round, not the cache; FetchData states the cache for each fetch.
- ConfigUtils.Ancestors: the contract states only that the walk starts at the given path, not that each entry is the dirname of the previous one (the body says so).
- ConfigUtils.WithBasePath: the contract states only that the result is a mapping. BasePathRule states the rule.
- NewsPipeline.NewsDataPipeline.FetchArticleContent: a news_link.csv without pubDate or title columns, an `.at` lookup on a duplicated index, and a malformed contents.json are not modelled.
- The module-level call with a hard-coded path at the end of data/news/omission_news.py is not modelled.

## Findings

| source | as written | input that shows it | evidently intended | confidence | as-written member | corrected member |
|---|---|---|---|---|---|---|
| scripts/update_stock_price.py:55 | The columns of each CSV part are upper-cased, then insert_stock_price reads df["volume"], df["open"] and so on in lower case | Any symbol with rows newer than the last stored DATE: the insert raises KeyError 'volume' | The insert reads the columns the frame has | not executed; high | StockPriceSync.UpperedFrameRaises | StockPriceSync.StockDataInserter.InsertStockPrice |
| module/analysis/llm/utils.py:52 | sorted_history[-n:] | n = 0 with a non-empty history: -0 is 0, so the whole history is returned | The n most recent entries, none for n = 0 | not executed; medium | ChatHistory.ZeroWindowKeepsAll | ChatHistory.LastN |
| module/analysis/llm/utils.py:52 | sorted_history[-n:] | n = -2 with five entries: the slice from index 2 returns the last three | No entries for a negative n | not executed; low | ChatHistory.NegativeWindowDropsFirst | ChatHistory.LastN |
| module/data/providers/core.py:152 | drop_duplicates(keep="last") after sort_index compares only the value columns and ignores the date index | Two bars at different times with identical OHLCV: one of them is dropped | Drop only rows duplicated in index and values | not executed; medium | ProviderPipeline.AsWrittenDropsEqualBars | ProviderPipeline.AllData |
