/**
 * The batch driver run_calculate_risk_values: selects one task per stock CSV
 * whose header has close and volume, scores each file, groups the scored
 * rows by symbol in task order, stamps them and writes one file per symbol.
 */
module RiskBatch {
  import opened Wrappers
  import opened Calendar
  import opened Paths
  import opened Frames
  import opened RiskEngine

  const ModelName: string := "Binseg"
  const AnalysisResult: string := "Completed"
  const OutputFile: string := "risk_values.csv"

  /**
   * A CSV row as read, its date still text; others holds the values of the
   * remaining columns, which drop_duplicates compares too.
   */
  datatype CsvRow = CsvRow(dateText: string, close: real, volume: real, others: seq<string>)

  datatype CsvTable = CsvTable(columns: set<string>, rows: seq<CsvRow>)

  /**
   * What the run sees of the filesystem: the directories, the *.csv listing
   * of each directory in glob order, and every file's content (None where
   * reading raises).
   */
  datatype Disk = Disk(dirs: set<string>, listings: map<string, seq<string>>, files: map<string, Option<CsvTable>>)

  datatype Task = Task(file: string, symbol: string)

  /** The pieces the driver does not own: pd.to_datetime, the change-point search, sqrt. */
  datatype Engine = Engine(parseDate: string -> Option<Date>, segment: Segmenter, root: real -> real)

  ghost predicate ValidEngine(eng: Engine) {
    ValidSegmenter(eng.segment) && NonNegativeRoot(eng.root)
    && forall s :: eng.parseDate(s).Some? ==> Valid(eng.parseDate(s).value)
  }

  predicate GuardedRow(r: CsvRow) {
    r.close + DivisionGuard != 0.0 && r.volume + DivisionGuard != 0.0
  }

  /** No price or volume on disk is exactly -1e-9 (which would divide by zero). */
  predicate GuardedDisk(disk: Disk) {
    forall p :: p in disk.files && disk.files[p].Some? ==>
      forall i :: 0 <= i < |disk.files[p].value.rows| ==> GuardedRow(disk.files[p].value.rows[i])
  }

  // ---- process_csv_file ----

  predicate ParsedFrom(r: CsvRow, pr: PriceRow, parse: string -> Option<Date>) {
    parse(r.dateText) == Some(pr.date) && r.close == pr.close && r.volume == pr.volume
  }

  /** Some raw row parses to pr. */
  predicate Produces(rows: seq<CsvRow>, pr: PriceRow, parse: string -> Option<Date>) {
    exists i :: 0 <= i < |rows| && ParsedFrom(rows[i], pr, parse)
  }

  lemma ProducesSnoc(rows: seq<CsvRow>, pr: PriceRow, parse: string -> Option<Date>)
    requires rows != []
    ensures Produces(rows, pr, parse) <==> Produces(rows[..|rows| - 1], pr, parse) || ParsedFrom(rows[|rows| - 1], pr, parse)
  {
    var init := rows[..|rows| - 1];
    if Produces(init, pr, parse) {
      var i :| 0 <= i < |init| && ParsedFrom(init[i], pr, parse);
      assert rows[i] == init[i];
    }
    if Produces(rows, pr, parse) && !ParsedFrom(rows[|rows| - 1], pr, parse) {
      var i :| 0 <= i < |rows| && ParsedFrom(rows[i], pr, parse);
      assert init[i] == rows[i];
    }
  }

  /** pd.to_datetime(errors="coerce") followed by dropna(subset=["date"]). */
  function ParseDates(rows: seq<CsvRow>, parse: string -> Option<Date>): (out: seq<PriceRow>)
    ensures |out| <= |rows|
    ensures forall pr :: pr in out <==> Produces(rows, pr, parse)
  {
    if rows == [] then []
    else
      var init := ParseDates(rows[..|rows| - 1], parse);
      var last := rows[|rows| - 1];
      var p := parse(last.dateText);
      var out := if p.Some? then init + [PriceRow(p.value, last.close, last.volume)] else init;
      assert forall pr :: Produces(rows, pr, parse) <==> Produces(rows[..|rows| - 1], pr, parse) || ParsedFrom(last, pr, parse) by {
        forall pr ensures Produces(rows, pr, parse) <==> Produces(rows[..|rows| - 1], pr, parse) || ParsedFrom(last, pr, parse) {
          ProducesSnoc(rows, pr, parse);
        }
      }
      out
  }

  /** drop_duplicates() (keep="first") on the raw rows, then the date parse and dropna. */
  function CleanRows(rows: seq<CsvRow>, parse: string -> Option<Date>): (out: seq<PriceRow>)
    ensures |out| <= |rows|
    ensures forall pr :: pr in out <==> Produces(rows, pr, parse)
  {
    var d := DedupFirst(rows);
    var out := ParseDates(d, parse);
    assert forall pr :: Produces(d, pr, parse) <==> Produces(rows, pr, parse) by {
      forall pr ensures Produces(d, pr, parse) <==> Produces(rows, pr, parse) {
        if Produces(rows, pr, parse) {
          var i :| 0 <= i < |rows| && ParsedFrom(rows[i], pr, parse);
          assert rows[i] in d;
          var j :| 0 <= j < |d| && d[j] == rows[i];
          assert ParsedFrom(d[j], pr, parse);
        }
        if Produces(d, pr, parse) {
          var j :| 0 <= j < |d| && ParsedFrom(d[j], pr, parse);
          assert d[j] in rows;
          var i :| 0 <= i < |rows| && rows[i] == d[j];
          assert ParsedFrom(rows[i], pr, parse);
        }
      }
    }
    out
  }

  /** Cleaning keeps the prices guarded. */
  lemma CleanRowsGuarded(rows: seq<CsvRow>, parse: string -> Option<Date>)
    requires forall i :: 0 <= i < |rows| ==> GuardedRow(rows[i])
    ensures DivisibleRows(CleanRows(rows, parse))
  {
    var out := CleanRows(rows, parse);
    forall t | 0 <= t < |out|
      ensures out[t].close + DivisionGuard != 0.0 && out[t].volume + DivisionGuard != 0.0
    {
      assert out[t] in out;
      var i :| 0 <= i < |rows| && ParsedFrom(rows[i], out[t], parse);
      assert GuardedRow(rows[i]);
    }
  }

  predicate Loadable(disk: Disk, path: string) {
    path in disk.files && disk.files[path].Some?
  }

  /** The rows the engine is given for a file. */
  function CleanedFile(disk: Disk, path: string, parse: string -> Option<Date>): seq<PriceRow>
    requires Loadable(disk, path)
  {
    CleanRows(disk.files[path].value.rows, parse)
  }

  /** A file the engine can be given: readable, with date, close and volume, and a dated row. */
  predicate Scoreable(disk: Disk, path: string, parse: string -> Option<Date>) {
    Loadable(disk, path)
    && "date" in disk.files[path].value.columns
    && "close" in disk.files[path].value.columns
    && "volume" in disk.files[path].value.columns
    && CleanedFile(disk, path, parse) != []
  }

  /**
   * process_csv_file: no rows for a missing or unreadable file, a file
   * without date, close or volume, a file without dated rows, or a failing
   * engine; otherwise the engine's rows, all tagged with the symbol and
   * aligned with the cleaned rows after the first.
   */
  method ProcessCsvFile(disk: Disk, path: string, symbol: string, eng: Engine) returns (out: seq<RiskRow>)
    requires ValidEngine(eng) && GuardedDisk(disk)
    ensures !Scoreable(disk, path, eng.parseDate) ==> out == []
    ensures forall i :: 0 <= i < |out| ==> out[i].symbol == symbol && 0.0 <= out[i].riskValue <= Percent
    ensures ValidDates(out)
    ensures out != [] ==>
      Scoreable(disk, path, eng.parseDate)
      && var cleaned := CleanedFile(disk, path, eng.parseDate);
      |out| == |cleaned| - 1 && forall i :: 0 <= i < |out| ==> out[i].date == cleaned[i + 1].date
    ensures out == ScoreOf(disk, path, symbol, eng)
  {
    if !Loadable(disk, path) {
      return [];
    }
    var table := disk.files[path].value;
    if "date" !in table.columns {
      return [];
    }
    var cleaned := CleanRows(table.rows, eng.parseDate);
    if !("close" in table.columns && "volume" in table.columns) {
      return [];
    }
    if cleaned == [] {
      return [];
    }
    assert Scoreable(disk, path, eng.parseDate);
    CleanRowsGuarded(table.rows, eng.parseDate);
    var r := CalculateRiskScores(PriceFrame(table.columns, cleaned), symbol, eng.segment, eng.root,
                                 DefaultBreakpoints, DefaultSmoothing);
    assert r == RiskScores(PriceFrame(table.columns, cleaned), symbol, eng.segment, eng.root, DefaultBreakpoints);
    if r.Failure? {
      return [];
    }
    out := r.value;
    assert out == ScoreOf(disk, path, symbol, eng);
  }

  /**
   * process_csv_file as a value: calculate_risk_scores's rows for the cleaned
   * frame of a scoreable file, and no rows otherwise or when it fails. The
   * rows carry the symbol, valid dates and scores in [0, 100], and are aligned
   * with the cleaned rows after the first.
   */
  function ScoreOf(disk: Disk, path: string, symbol: string, eng: Engine): (out: seq<RiskRow>)
    requires ValidEngine(eng) && GuardedDisk(disk)
    ensures !Scoreable(disk, path, eng.parseDate) ==> out == []
    ensures forall i :: 0 <= i < |out| ==> out[i].symbol == symbol && 0.0 <= out[i].riskValue <= Percent
    ensures ValidDates(out)
    ensures out != [] ==>
      Scoreable(disk, path, eng.parseDate)
      && var cleaned := CleanedFile(disk, path, eng.parseDate);
      |out| == |cleaned| - 1 && forall i :: 0 <= i < |out| ==> out[i].date == cleaned[i + 1].date
  {
    if !Scoreable(disk, path, eng.parseDate) then []
    else
      var table := disk.files[path].value;
      var cleaned := CleanRows(table.rows, eng.parseDate);
      CleanRowsGuarded(table.rows, eng.parseDate);
      var r := RiskScores(PriceFrame(table.columns, cleaned), symbol, eng.segment, eng.root, DefaultBreakpoints);
      if r.Failure? then []
      else
        CleanedDatesValid(table.rows, eng, r.value, cleaned);
        r.value
  }

  /** Rows dated like cleaned rows after the first have valid dates. */
  lemma CleanedDatesValid(rows: seq<CsvRow>, eng: Engine, out: seq<RiskRow>, cleaned: seq<PriceRow>)
    requires ValidEngine(eng) && cleaned == CleanRows(rows, eng.parseDate) && |out| == |cleaned| - 1
    requires forall i :: 0 <= i < |out| ==> out[i].date == cleaned[i + 1].date
    ensures ValidDates(out)
  {
    forall i | 0 <= i < |out|
      ensures Valid(out[i].date)
    {
      assert cleaned[i + 1] in cleaned;
      var j :| 0 <= j < |rows| && ParsedFrom(rows[j], cleaned[i + 1], eng.parseDate);
    }
  }

  /** The results pool.map yields for tasks, in task order. */
  function Scored(disk: Disk, tasks: seq<Task>, eng: Engine): (results: seq<seq<RiskRow>>)
    requires ValidEngine(eng) && GuardedDisk(disk)
    ensures |results| == |tasks|
  {
    seq(|tasks|, i requires 0 <= i < |tasks| => ScoreOf(disk, tasks[i].file, tasks[i].symbol, eng))
  }

  // ---- task selection ----

  /** glob(join(folder, "*.csv")): the listing of a folder, empty when there is none. */
  function Listing(disk: Disk, folder: string): seq<string> {
    if folder in disk.listings then disk.listings[folder] else []
  }

  /**
   * pd.read_csv(file, nrows=0) succeeds and the header has close and volume.
   * The model has one readability flag per file, so a file whose header reads
   * but whose body does not is no task here, while the source makes it a task
   * that process_csv_file turns into an empty frame: the task list differs,
   * the grouped risk rows do not.
   */
  predicate HeaderOk(disk: Disk, file: string) {
    Loadable(disk, file) && "close" in disk.files[file].value.columns && "volume" in disk.files[file].value.columns
  }

  /** The tasks of the files of one folder, in listing order. */
  function FolderTasks(disk: Disk, files: seq<string>, symbol: string): (ts: seq<Task>)
    ensures forall t :: t in ts <==> t.symbol == symbol && t.file in files && HeaderOk(disk, t.file)
  {
    if files == [] then []
    else
      var init := FolderTasks(disk, files[..|files| - 1], symbol);
      var f := files[|files| - 1];
      assert forall x :: x in files <==> x in files[..|files| - 1] || x == f;
      if HeaderOk(disk, f) then init + [Task(f, symbol)] else init
  }

  function SymbolTasks(disk: Disk, basePath: string, symbol: string): seq<Task> {
    var folder := Join(basePath, symbol);
    if folder in disk.dirs then FolderTasks(disk, Listing(disk, folder), symbol) else []
  }

  /** The tasks of all stocks, stock by stock. */
  function AllTasks(disk: Disk, basePath: string, stocks: seq<string>): seq<Task> {
    if stocks == [] then []
    else AllTasks(disk, basePath, stocks[..|stocks| - 1]) + SymbolTasks(disk, basePath, stocks[|stocks| - 1])
  }

  /** A task exists exactly for a listed CSV of a stock's directory whose header has close and volume. */
  lemma {:induction false} TaskIff(disk: Disk, basePath: string, stocks: seq<string>, t: Task)
    ensures t in AllTasks(disk, basePath, stocks) <==>
      t.symbol in stocks && Join(basePath, t.symbol) in disk.dirs
      && t.file in Listing(disk, Join(basePath, t.symbol)) && HeaderOk(disk, t.file)
  {
    if stocks != [] {
      var init := stocks[..|stocks| - 1];
      TaskIff(disk, basePath, init, t);
      assert forall x :: x in stocks <==> x in init || x == stocks[|stocks| - 1];
    }
  }

  /** The nested loops of main that build the task list. */
  method SelectTasks(disk: Disk, basePath: string, stocks: seq<string>) returns (tasks: seq<Task>)
    ensures tasks == AllTasks(disk, basePath, stocks)
  {
    tasks := [];
    var k := 0;
    while k < |stocks|
      invariant 0 <= k <= |stocks|
      invariant tasks == AllTasks(disk, basePath, stocks[..k])
    {
      var symbol := stocks[k];
      var folder := Join(basePath, symbol);
      assert stocks[..k + 1][..k] == stocks[..k];
      if folder in disk.dirs {
        var found := ScanFolder(disk, Listing(disk, folder), symbol);
        tasks := tasks + found;
      }
      k := k + 1;
    }
    assert stocks[..k] == stocks;
  }

  /** The inner loop of main: one task per listed file whose header has close and volume. */
  method ScanFolder(disk: Disk, files: seq<string>, symbol: string) returns (found: seq<Task>)
    ensures found == FolderTasks(disk, files, symbol)
  {
    found := [];
    var j := 0;
    while j < |files|
      invariant 0 <= j <= |files|
      invariant found == FolderTasks(disk, files[..j], symbol)
    {
      assert files[..j + 1][..j] == files[..j];
      if HeaderOk(disk, files[j]) {
        found := found + [Task(files[j], symbol)];
      }
      j := j + 1;
    }
    assert files[..j] == files;
  }

  /** pool.map(process_csv_file, tasks), sequentially and in order. */
  method ScoreTasks(disk: Disk, tasks: seq<Task>, eng: Engine) returns (results: seq<seq<RiskRow>>)
    requires ValidEngine(eng) && GuardedDisk(disk)
    ensures |results| == |tasks|
    ensures forall i, j :: 0 <= i < |results| && 0 <= j < |results[i]| ==> results[i][j].symbol == tasks[i].symbol
    ensures forall i :: 0 <= i < |results| ==> ValidDates(results[i])
    ensures results == Scored(disk, tasks, eng)
  {
    results := [];
    var i := 0;
    while i < |tasks|
      invariant 0 <= i <= |tasks| && |results| == i
      invariant results == Scored(disk, tasks[..i], eng)
    {
      var rows := ProcessCsvFile(disk, tasks[i].file, tasks[i].symbol, eng);
      ScoredSnoc(disk, tasks, i, eng);
      results := results + [rows];
      i := i + 1;
    }
    assert tasks[..i] == tasks;
  }

  lemma ScoredSnoc(disk: Disk, tasks: seq<Task>, i: int, eng: Engine)
    requires ValidEngine(eng) && GuardedDisk(disk) && 0 <= i < |tasks|
    ensures Scored(disk, tasks[..i + 1], eng) == Scored(disk, tasks[..i], eng) + [ScoreOf(disk, tasks[i].file, tasks[i].symbol, eng)]
  {
    assert tasks[..i + 1] == tasks[..i] + [tasks[i]];
  }

  // ---- grouping ----

  /** The rows of a symbol: its non-empty results, concatenated in task order. */
  function GroupOf(results: seq<seq<RiskRow>>, s: string): seq<RiskRow> {
    if results == [] then []
    else
      var r := results[|results| - 1];
      GroupOf(results[..|results| - 1], s) + (if r != [] && r[0].symbol == s then r else [])
  }

  /** The symbols read from the first row of each non-empty result. */
  function GroupKeys(results: seq<seq<RiskRow>>): set<string> {
    if results == [] then {}
    else
      var r := results[|results| - 1];
      GroupKeys(results[..|results| - 1]) + (if r != [] then {r[0].symbol} else {})
  }

  /** A key is the first symbol of some non-empty result. */
  lemma {:induction false} GroupKeyWitness(results: seq<seq<RiskRow>>, s: string) returns (i: int)
    requires s in GroupKeys(results)
    ensures 0 <= i < |results| && results[i] != [] && results[i][0].symbol == s
  {
    var init := results[..|results| - 1];
    var r := results[|results| - 1];
    if r != [] && r[0].symbol == s {
      i := |results| - 1;
    } else {
      i := GroupKeyWitness(init, s);
      assert results[i] == init[i];
    }
  }

  predicate SingleSymbol(rows: seq<RiskRow>, s: string) {
    forall j :: 0 <= j < |rows| ==> rows[j].symbol == s
  }

  lemma GroupSnoc(results: seq<seq<RiskRow>>, r: seq<RiskRow>, s: string)
    ensures GroupOf(results + [r], s) == GroupOf(results, s) + (if r != [] && r[0].symbol == s then r else [])
  {
    assert (results + [r])[..|results|] == results;
  }

  lemma GroupKeysSnoc(results: seq<seq<RiskRow>>, r: seq<RiskRow>)
    ensures GroupKeys(results + [r]) == GroupKeys(results) + (if r != [] then {r[0].symbol} else {})
  {
    assert (results + [r])[..|results|] == results;
  }

  lemma {:induction false} GroupOfNotKey(results: seq<seq<RiskRow>>, s: string)
    requires s !in GroupKeys(results)
    ensures GroupOf(results, s) == []
  {
    if results != [] {
      var init := results[..|results| - 1];
      assert results == init + [results[|results| - 1]];
      GroupKeysSnoc(init, results[|results| - 1]);
      GroupOfNotKey(init, s);
    }
  }

  /** groups and order are what the df_by_symbol loop has built from results. */
  ghost predicate Grouped(groups: map<string, seq<RiskRow>>, order: seq<string>, results: seq<seq<RiskRow>>) {
    groups.Keys == GroupKeys(results)
    && (forall s :: s in groups ==> groups[s] == GroupOf(results, s))
    && (forall s :: s in order <==> s in groups)
    && (order == [] <==> groups.Keys == {})
    && Distinct(order)
  }

  /** An empty result adds nothing to the grouping. */
  lemma GroupAddEmpty(groups: map<string, seq<RiskRow>>, order: seq<string>, done: seq<seq<RiskRow>>)
    requires Grouped(groups, order, done)
    ensures Grouped(groups, order, done + [[]])
  {
    GroupKeysSnoc(done, []);
    forall s | s in groups ensures groups[s] == GroupOf(done + [[]], s) {
      GroupSnoc(done, [], s);
    }
  }

  /** A result whose symbol already has a group is appended to that group. */
  lemma GroupAddExisting(groups: map<string, seq<RiskRow>>, order: seq<string>, done: seq<seq<RiskRow>>, r: seq<RiskRow>)
    requires Grouped(groups, order, done) && r != [] && r[0].symbol in groups
    ensures Grouped(groups[r[0].symbol := groups[r[0].symbol] + r], order, done + [r])
  {
    var g := groups[r[0].symbol := groups[r[0].symbol] + r];
    GroupKeysSnoc(done, r);
    forall s | s in g ensures g[s] == GroupOf(done + [r], s) {
      GroupSnoc(done, r, s);
    }
  }

  /** A result with a new symbol opens a group for it, and the symbol joins the order. */
  lemma GroupAddNew(groups: map<string, seq<RiskRow>>, order: seq<string>, done: seq<seq<RiskRow>>, r: seq<RiskRow>)
    requires Grouped(groups, order, done) && r != [] && r[0].symbol !in groups
    ensures Grouped(groups[r[0].symbol := r], order + [r[0].symbol], done + [r])
  {
    var g := groups[r[0].symbol := r];
    GroupKeysSnoc(done, r);
    GroupOfNotKey(done, r[0].symbol);
    forall s | s in g ensures g[s] == GroupOf(done + [r], s) {
      GroupSnoc(done, r, s);
    }
  }

  /** The df_by_symbol loop: skip empty results, key by the first row's symbol, concatenate. */
  method GroupBySymbol(results: seq<seq<RiskRow>>) returns (groups: map<string, seq<RiskRow>>, order: seq<string>)
    ensures Grouped(groups, order, results)
  {
    groups := map[];
    order := [];
    var i := 0;
    while i < |results|
      invariant 0 <= i <= |results|
      invariant Grouped(groups, order, results[..i])
    {
      groups, order := AddResult(groups, order, results[i], results[..i]);
      PrefixSnoc(results, i);
      i := i + 1;
    }
    PrefixWhole(results);
  }

  /** Extending a prefix of the results by the next one gives the next prefix. */
  lemma PrefixSnoc(results: seq<seq<RiskRow>>, i: nat)
    requires i < |results|
    ensures results[..i] + [results[i]] == results[..i + 1]
  {
  }

  /** The prefix of all the results is the results. */
  lemma PrefixWhole(results: seq<seq<RiskRow>>)
    ensures results[..|results|] == results
  {
  }

  /** One pass of the df_by_symbol loop: skip an empty result, else append it to its symbol's group. */
  method AddResult(groups: map<string, seq<RiskRow>>, order: seq<string>, r: seq<RiskRow>, ghost done: seq<seq<RiskRow>>)
    returns (groups': map<string, seq<RiskRow>>, order': seq<string>)
    requires Grouped(groups, order, done)
    ensures Grouped(groups', order', done + [r])
  {
    if r == [] {
      GroupAddEmpty(groups, order, done);
      groups', order' := groups, order;
    } else if r[0].symbol in groups {
      GroupAddExisting(groups, order, done, r);
      groups', order' := groups[r[0].symbol := groups[r[0].symbol] + r], order;
    } else {
      GroupAddNew(groups, order, done, r);
      groups', order' := groups[r[0].symbol := r], order + [r[0].symbol];
    }
  }

  /** When every result carries one symbol, each group holds only its own symbol's rows. */
  lemma {:induction false} GroupIsSingleSymbol(results: seq<seq<RiskRow>>, s: string)
    requires forall i :: 0 <= i < |results| && results[i] != [] ==> SingleSymbol(results[i], results[i][0].symbol)
    ensures SingleSymbol(GroupOf(results, s), s)
  {
    if results != [] {
      GroupIsSingleSymbol(results[..|results| - 1], s);
    }
  }

  lemma {:induction false} GroupDatesValid(results: seq<seq<RiskRow>>, s: string)
    requires forall i :: 0 <= i < |results| ==> ValidDates(results[i])
    ensures ValidDates(GroupOf(results, s))
  {
    if results != [] {
      GroupDatesValid(results[..|results| - 1], s);
    }
  }

  /** Every key names a non-empty group. */
  lemma {:induction false} GroupOfKeyNonEmpty(results: seq<seq<RiskRow>>, s: string)
    requires s in GroupKeys(results)
    ensures GroupOf(results, s) != []
  {
    var init := results[..|results| - 1];
    var r := results[|results| - 1];
    if !(r != [] && r[0].symbol == s) {
      GroupOfKeyNonEmpty(init, s);
    }
  }

  // ---- stamping and output ----

  /** One row of risk_values.csv; the symbol column is dropped. */
  datatype StampedRow = StampedRow(date: string, riskValue: real, modelName: string, analysisResult: string,
                                   testDate: string, predictDate: string, riskScore: real)

  predicate ValidDates(rows: seq<RiskRow>) {
    forall i :: 0 <= i < |rows| ==> Valid(rows[i].date)
  }

  /**
   * Adds model_name "Binseg", analysis_result "Completed", one test_date for
   * every row, predict_date equal to the row's date, both as YYYY-MM-DD, and
   * risk_score equal to risk_value.
   */
  function Stamp(rows: seq<RiskRow>, today: Date): (out: seq<StampedRow>)
    requires ValidDates(rows) && Valid(today)
    ensures |out| == |rows|
    ensures forall i :: 0 <= i < |out| ==>
      out[i].modelName == ModelName && out[i].analysisResult == AnalysisResult
      && out[i].testDate == Format(today) && out[i].predictDate == out[i].date
      && out[i].riskScore == out[i].riskValue == rows[i].riskValue
  {
    var td := Format(today);
    seq(|rows|, i requires 0 <= i < |rows| =>
      var d := Format(rows[i].date);
      StampedRow(d, rows[i].riskValue, ModelName, AnalysisResult, td, d, rows[i].riskValue))
  }

  /** Reads a stamped row back as a risk row of the given symbol. */
  function Unstamp(row: StampedRow, symbol: string): Option<RiskRow> {
    match ParseIso(row.date)
    case Some(d) => Some(RiskRow(symbol, d, row.riskValue))
    case None => None
  }

  /** Stamping loses nothing but the symbol column. */
  lemma StampRoundTrip(rows: seq<RiskRow>, today: Date, symbol: string)
    requires ValidDates(rows) && Valid(today) && SingleSymbol(rows, symbol)
    ensures forall i :: 0 <= i < |rows| ==> Unstamp(Stamp(rows, today)[i], symbol) == Some(rows[i])
  {
    forall i | 0 <= i < |rows|
      ensures Unstamp(Stamp(rows, today)[i], symbol) == Some(rows[i])
    {
      FormatRoundTrip(rows[i].date);
    }
  }

  /** data/risk/<basename of base_path>/<symbol>/risk_values.csv under the project root. */
  function OutputPath(projectRoot: string, basePath: string, symbol: string): string {
    Join(Join(Join(Join(Join(projectRoot, "data"), "risk"), Basename(basePath)), symbol), OutputFile)
  }

  /** Distinct plain symbols are written to distinct files. */
  lemma OutputPathInjective(projectRoot: string, basePath: string, s: string, t: string)
    requires IsName(s) && IsName(t) && OutputPath(projectRoot, basePath, s) == OutputPath(projectRoot, basePath, t)
    ensures s == t
  {
    var dir := Join(Join(Join(projectRoot, "data"), "risk"), Basename(basePath));
    var m := DirPrefix(dir);
    JoinName(dir, s);
    JoinName(dir, t);
    assert IsName(OutputFile);
    JoinName(m + s, OutputFile);
    JoinName(m + t, OutputFile);
    assert OutputPath(projectRoot, basePath, s) == m + s + [Sep] + OutputFile;
    assert OutputPath(projectRoot, basePath, t) == m + t + [Sep] + OutputFile;
    assert |s| == |t|;
    assert s == (m + s + [Sep] + OutputFile)[|m|..|m| + |s|];
    assert t == (m + t + [Sep] + OutputFile)[|m|..|m| + |t|];
  }

  /** File p holds rows: the stamped group of a symbol whose output path is p. */
  ghost predicate WrittenFrom(groups: map<string, seq<RiskRow>>, projectRoot: string, basePath: string, today: Date,
                              p: string, rows: seq<StampedRow>)
    requires Valid(today) && forall s :: s in groups ==> ValidDates(groups[s])
  {
    exists s :: s in groups && p == OutputPath(projectRoot, basePath, s) && rows == Stamp(groups[s], today)
  }

  /** Writing the file of one more element keeps the files of the earlier ones. */
  lemma PutKeepsKeys<S, K, V>(m: map<K, V>, order: seq<S>, k: int, f: S -> K, v: V)
    requires 0 <= k < |order| && forall j :: 0 <= j < k ==> f(order[j]) in m
    ensures forall j :: 0 <= j <= k ==> f(order[j]) in m[f(order[k]) := v]
  {
  }

  /** The output loop: one file per group, at the group's output path. */
  method WriteGroups(groups: map<string, seq<RiskRow>>, order: seq<string>, projectRoot: string, basePath: string, today: Date)
    returns (written: map<string, seq<StampedRow>>)
    requires forall s :: s in order <==> s in groups
    requires forall s :: s in groups ==> ValidDates(groups[s])
    requires Valid(today)
    ensures order == [] ==> written == map[]
    ensures forall s :: s in groups ==> OutputPath(projectRoot, basePath, s) in written
    ensures forall p :: p in written ==> WrittenFrom(groups, projectRoot, basePath, today, p, written[p])
  {
    written := map[];
    ghost var pathOf := s => OutputPath(projectRoot, basePath, s);
    var k := 0;
    while k < |order|
      invariant 0 <= k <= |order|
      invariant k == 0 ==> written == map[]
      invariant forall j :: 0 <= j < k ==> pathOf(order[j]) in written
      invariant forall p :: p in written ==> WrittenFrom(groups, projectRoot, basePath, today, p, written[p])
    {
      var s := order[k];
      var path := OutputPath(projectRoot, basePath, s);
      var rows := Stamp(groups[s], today);
      assert WrittenFrom(groups, projectRoot, basePath, today, path, rows);
      PutKeepsKeys(written, order, k, pathOf, rows);
      written := written[path := rows];
      k := k + 1;
    }
    forall s | s in groups
      ensures OutputPath(projectRoot, basePath, s) in written
    {
      assert s in order;
      var j :| 0 <= j < |order| && order[j] == s;
      assert pathOf(order[j]) in written;
    }
  }

  /** Facts about every group built from scored tasks. */
  lemma GroupsFromTasks(disk: Disk, basePath: string, stocks: seq<string>, tasks: seq<Task>,
                        results: seq<seq<RiskRow>>, groups: map<string, seq<RiskRow>>)
    requires tasks == AllTasks(disk, basePath, stocks) && |results| == |tasks|
    requires forall i, j :: 0 <= i < |results| && 0 <= j < |results[i]| ==> results[i][j].symbol == tasks[i].symbol
    requires forall i :: 0 <= i < |results| ==> ValidDates(results[i])
    requires groups.Keys == GroupKeys(results) && forall s :: s in groups ==> groups[s] == GroupOf(results, s)
    ensures forall s :: s in groups ==> s in stocks && groups[s] != [] && SingleSymbol(groups[s], s) && ValidDates(groups[s])
  {
    forall s | s in groups
      ensures s in stocks && groups[s] != [] && SingleSymbol(groups[s], s) && ValidDates(groups[s])
    {
      assert forall i :: 0 <= i < |results| && results[i] != [] ==> SingleSymbol(results[i], results[i][0].symbol);
      GroupIsSingleSymbol(results, s);
      GroupOfKeyNonEmpty(results, s);
      GroupDatesValid(results, s);
      var i := GroupKeyWitness(results, s);
      assert tasks[i].symbol == s;
      assert tasks[i] in AllTasks(disk, basePath, stocks);
      TaskIff(disk, basePath, stocks, tasks[i]);
    }
  }

  /**
   * main: select tasks, score them, group by symbol, and write each group's
   * stamped rows. With no tasks nothing is written; every written file
   * belongs to a symbol of the stock list and holds that symbol's stamped
   * group.
   */
  method RunBatch(disk: Disk, basePath: string, projectRoot: string, stocks: seq<string>, eng: Engine, today: Date)
    returns (groups: map<string, seq<RiskRow>>, written: map<string, seq<StampedRow>>)
    requires ValidEngine(eng) && GuardedDisk(disk) && Valid(today)
    ensures AllTasks(disk, basePath, stocks) == [] ==> groups == map[] && written == map[]
    ensures forall s :: s in groups ==> s in stocks && groups[s] != [] && SingleSymbol(groups[s], s) && ValidDates(groups[s])
    ensures forall s :: s in groups ==> OutputPath(projectRoot, basePath, s) in written
    ensures forall p :: p in written ==> WrittenFrom(groups, projectRoot, basePath, today, p, written[p])
    ensures groups.Keys == GroupKeys(Scored(disk, AllTasks(disk, basePath, stocks), eng))
    ensures forall s :: s in groups ==> groups[s] == GroupOf(Scored(disk, AllTasks(disk, basePath, stocks), eng), s)
    ensures (forall s :: s in stocks ==> IsName(s)) ==>
      forall s :: s in groups ==> written[OutputPath(projectRoot, basePath, s)] == Stamp(groups[s], today)
  {
    var tasks := SelectTasks(disk, basePath, stocks);
    var results: seq<seq<RiskRow>>;
    if |tasks| > 0 {
      results := ScoreTasks(disk, tasks, eng);
    } else {
      results := [];
    }
    var order: seq<string>;
    groups, order := GroupBySymbol(results);
    GroupsFromTasks(disk, basePath, stocks, tasks, results, groups);
    written := WriteGroups(groups, order, projectRoot, basePath, today);
    if tasks == [] {
      assert groups.Keys == {};
    }
    if forall s :: s in stocks ==> IsName(s) {
      forall s | s in groups
        ensures written[OutputPath(projectRoot, basePath, s)] == Stamp(groups[s], today)
      {
        var p := OutputPath(projectRoot, basePath, s);
        var t :| t in groups && p == OutputPath(projectRoot, basePath, t) && written[p] == Stamp(groups[t], today);
        OutputPathInjective(projectRoot, basePath, s, t);
      }
    }
  }
}
