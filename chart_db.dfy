/**
 * The chart-data loader (module/data/database/aggregated_dataset_db_refac.py):
 * the AggregatedDataset table as a sequence of records, ChartDB's insert and
 * update, get_last_date, batch_insert, and main, which walks
 * the .csv files of <data_path>/{KOR,USA}/<symbol> and inserts the rows newer than the
 * symbol's last stored date.
 */
module ChartDb {
  import opened Wrappers
  import opened Calendar
  import opened Paths
  import opened Frames

  /**
   * One CSV row after read_csv: dateText is the date cell as read, date its
   * pd.to_datetime(..., utc=True), and others the cells of any further columns.
   * drop_duplicates runs before the conversion and compares every cell; as date
   * is a function of dateText, comparing whole rows compares exactly the cells.
   */
  datatype CsvRow = CsvRow(dateText: string, date: Instant, open: real, high: real, low: real, close: real,
                           volume: real, others: seq<string>)

  /** A row with its index label: its position in the file it was read from. */
  datatype Labelled = Labelled(index: nat, row: CsvRow)

  /** A row of AggregatedDataset. */
  datatype Record = Record(
    assetId: int, tradeDate: Date,
    open: real, high: real, low: real, close: real, volume: real,
    exchange: string, assetType: string, national: string, assetName: string)

  const Exchange: string := "NASDAQ"
  const AssetType: string := "EQUITY"
  const National: string := "US"

  /**
   * Whether the database refuses an executemany of these records on this
   * table (a duplicate key, a lost connection): its answer is not known here.
   */
  type Rejects = (seq<Record>, seq<Record>) -> bool

  // ---- insert ----

  /** The tuple insert builds for one row: id = index + 1, the UTC date part, fixed venue fields. */
  function RecordOf(x: Labelled, symbol: string): Record {
    Record(x.index + 1, x.row.date.date,
      x.row.open, x.row.high, x.row.low, x.row.close, x.row.volume,
      Exchange, AssetType, National, symbol)
  }

  /** The records list of insert: one record per row, in row order. */
  function RecordsOf(data: seq<Labelled>, symbol: string): (r: seq<Record>)
    ensures |r| == |data|
    ensures forall i :: 0 <= i < |data| ==>
      r[i].assetId == data[i].index + 1 && r[i].tradeDate == data[i].row.date.date
      && r[i].open == data[i].row.open && r[i].high == data[i].row.high
      && r[i].low == data[i].row.low && r[i].close == data[i].row.close
      && r[i].volume == data[i].row.volume
      && r[i].exchange == Exchange && r[i].assetType == AssetType
      && r[i].national == National && r[i].assetName == symbol
  {
    MapSeq(data, (x: Labelled) => RecordOf(x, symbol))
  }

  /** The table after insert: unchanged for an empty frame or a rolled-back batch, else extended by the records. */
  function Inserted(t: seq<Record>, data: seq<Labelled>, symbol: string, rejects: Rejects): seq<Record> {
    if data == [] then t
    else if rejects(t, RecordsOf(data, symbol)) then t
    else t + RecordsOf(data, symbol)
  }

  /** r was built by insert from one of the rows of data. */
  ghost predicate BuiltFrom(r: Record, data: seq<Labelled>, symbol: string) {
    exists x :: x in data && r == RecordOf(x, symbol)
  }

  // ---- update ----

  /** The numeric columns an update may set. */
  datatype Column = Open | High | Low | Close | Volume

  function ColumnOf(r: Record, c: Column): real {
    match c
    case Open => r.open
    case High => r.high
    case Low => r.low
    case Close => r.close
    case Volume => r.volume
  }

  /** SET col=value for every column of the dict. */
  function Assign(r: Record, data: map<Column, real>): Record {
    r.(open := if Open in data then data[Open] else r.open,
       high := if High in data then data[High] else r.high,
       low := if Low in data then data[Low] else r.low,
       close := if Close in data then data[Close] else r.close,
       volume := if Volume in data then data[Volume] else r.volume)
  }

  /** The same row apart from its numeric columns. */
  predicate SameIdentity(a: Record, b: Record) {
    a.assetId == b.assetId && a.tradeDate == b.tradeDate && a.assetName == b.assetName
    && a.exchange == b.exchange && a.assetType == b.assetType && a.national == b.national
  }

  /** UPDATE ... SET <data> WHERE <where>, with WHERE as a predicate on rows. */
  function Updated(t: seq<Record>, data: map<Column, real>, where: Record -> bool): (r: seq<Record>)
    ensures |r| == |t|
    ensures forall i :: 0 <= i < |t| && !where(t[i]) ==> r[i] == t[i]
    ensures forall i :: 0 <= i < |t| && where(t[i]) ==> SameIdentity(r[i], t[i])
    ensures forall i, c :: 0 <= i < |t| && where(t[i]) ==>
      ColumnOf(r[i], c) == if c in data then data[c] else ColumnOf(t[i], c)
  {
    MapSeq(t, (x: Record) => if where(x) then Assign(x, data) else x)
  }

  // ---- get_last_date ----

  /** SELECT MAX(trade_date) ... WHERE asset_name = symbol; None when the symbol has no row. */
  function LastDate(t: seq<Record>, symbol: string): (r: Option<Date>)
    ensures r.None? <==> forall i :: 0 <= i < |t| ==> t[i].assetName != symbol
    ensures r.Some? ==> exists i :: 0 <= i < |t| && t[i].assetName == symbol && t[i].tradeDate == r.value
    ensures r.Some? ==> forall i :: 0 <= i < |t| && t[i].assetName == symbol ==> Ordinal(t[i].tradeDate) <= Ordinal(r.value)
  {
    if t == [] then None
    else
      var init := t[..|t| - 1];
      var x := t[|t| - 1];
      assert forall i :: 0 <= i < |init| ==> t[i] == init[i];
      var m := LastDate(init, symbol);
      if x.assetName != symbol then m
      else if m.Some? && Ordinal(x.tradeDate) <= Ordinal(m.value) then m
      else Some(x.tradeDate)
  }

  /** get_last_date: the last date as a UTC timestamp at midnight. */
  function GetLastDate(t: seq<Record>, symbol: string): Option<Instant> {
    match LastDate(t, symbol)
    case None => None
    case Some(d) => Some(Midnight(d))
  }

  /** Rows only ever being added, the last date of a symbol never goes back. */
  lemma LastDateMonotone(t0: seq<Record>, t1: seq<Record>, symbol: string)
    requires t0 <= t1
    ensures LastDate(t0, symbol).Some? ==>
      LastDate(t1, symbol).Some? && Ordinal(LastDate(t0, symbol).value) <= Ordinal(LastDate(t1, symbol).value)
  {
    if LastDate(t0, symbol).Some? {
      var i :| 0 <= i < |t0| && t0[i].assetName == symbol && t0[i].tradeDate == LastDate(t0, symbol).value;
      assert t1[i] == t0[i];
    }
  }

  // ---- batch_insert ----

  const BatchSize: int := 1000

  /** data.iloc[s:s+size] for s in range(start, len(data), size). */
  function BatchesFrom<T>(data: seq<T>, size: int, start: nat): seq<seq<T>>
    requires size > 0
    decreases |data| - start
  {
    if start >= |data| then []
    else [data[start..if start + size < |data| then start + size else |data|]] + BatchesFrom(data, size, start + size)
  }

  /** Concatenated, the batches are the rows from start on. */
  lemma {:induction false} BatchesCover<T>(data: seq<T>, size: int, start: nat)
    requires size > 0 && start <= |data|
    ensures Concat(BatchesFrom(data, size, start)) == data[start..]
    decreases |data| - start
  {
    if start < |data| {
      var end := if start + size < |data| then start + size else |data|;
      BatchesCover(data, size, end);
      if end < start + size {
        assert BatchesFrom(data, size, start + size) == [];
      }
      ConcatCons(data[start..end], BatchesFrom(data, size, start + size));
      assert data[start..] == data[start..end] + data[end..];
    }
  }

  /** The k-th batch is the slice [start + k*size, start + (k+1)*size), cut at the end of the data. */
  lemma {:induction false} BatchAt<T>(data: seq<T>, size: int, start: nat, k: nat)
    requires size > 0 && k < |BatchesFrom(data, size, start)|
    ensures start + k * size < |data|
    ensures BatchesFrom(data, size, start)[k]
      == data[start + k * size..if start + k * size + size < |data| then start + k * size + size else |data|]
    decreases k
  {
    if k > 0 {
      BatchAt(data, size, start + size, k - 1);
      assert start + size + (k - 1) * size == start + k * size;
    }
  }

  /** The batches are consecutive slices, each non-empty and at most size rows long. */
  lemma BatchesSlices<T>(data: seq<T>, size: int, start: nat)
    requires size > 0
    ensures var b := BatchesFrom(data, size, start);
      forall k :: 0 <= k < |b| ==>
        start + k * size < |data|
        && b[k] == data[start + k * size..if start + k * size + size < |data| then start + k * size + size else |data|]
        && 0 < |b[k]| <= size
  {
    var b := BatchesFrom(data, size, start);
    forall k | 0 <= k < |b|
      ensures start + k * size < |data|
      ensures b[k] == data[start + k * size..if start + k * size + size < |data| then start + k * size + size else |data|]
    {
      BatchAt(data, size, start, k);
    }
  }

  /** The number of batches: len(data) / size rounded up. */
  lemma {:induction false} BatchesCount<T>(data: seq<T>, size: int, start: nat)
    requires size > 0 && start <= |data|
    ensures |BatchesFrom(data, size, start)| * size >= |data| - start
    ensures |BatchesFrom(data, size, start)| * size < |data| - start + size
    decreases |data| - start
  {
    if start < |data| {
      BatchesCount(data, size, if start + size < |data| then start + size else |data|);
      if start + size >= |data| {
        assert BatchesFrom(data, size, start + size) == [];
      }
    }
  }

  /** One insert per batch, in batch order, each against the table the previous ones left. */
  function InsertAll(t: seq<Record>, batches: seq<seq<Labelled>>, symbol: string, rejects: Rejects): seq<Record>
    decreases |batches|
  {
    if batches == [] then t
    else InsertAll(Inserted(t, batches[0], symbol, rejects), batches[1..], symbol, rejects)
  }

  /** The first batch is inserted first, the others after it. */
  lemma InsertAllStep(t: seq<Record>, data: seq<Labelled>, size: int, start: nat, stop: nat, symbol: string, rejects: Rejects)
    requires size > 0 && start < |data| && stop == if start + size < |data| then start + size else |data|
    ensures InsertAll(t, BatchesFrom(data, size, start), symbol, rejects)
      == InsertAll(Inserted(t, data[start..stop], symbol, rejects), BatchesFrom(data, size, start + size), symbol, rejects)
  {
    var b := BatchesFrom(data, size, start);
    assert b[1..] == BatchesFrom(data, size, start + size);
  }

  /** The batches only append, and only records built from their rows. */
  lemma {:induction false} InsertAllAppends(t: seq<Record>, batches: seq<seq<Labelled>>, symbol: string, rejects: Rejects)
    ensures GrowsWith(t, InsertAll(t, batches, symbol, rejects), (r: Record) => BuiltFrom(r, Concat(batches), symbol))
    decreases |batches|
  {
    if batches != [] {
      var p := (r: Record) => BuiltFrom(r, Concat(batches), symbol);
      var t1 := Inserted(t, batches[0], symbol, rejects);
      ConcatCons(batches[0], batches[1..]);
      assert batches == [batches[0]] + batches[1..];
      forall i | |t| <= i < |t1| ensures p(t1[i]) {
        var recs := RecordsOf(batches[0], symbol);
        assert t1[i] == recs[i - |t|];
        assert batches[0][i - |t|] in Concat(batches);
      }
      InsertAllAppends(t1, batches[1..], symbol, rejects);
      GrowsWithWeaken(t1, InsertAll(t1, batches[1..], symbol, rejects),
        (r: Record) => BuiltFrom(r, Concat(batches[1..]), symbol), p);
      GrowsWithTrans(t, t1, InsertAll(t, batches, symbol, rejects), p);
    }
  }

  // ---- main's per-file filter ----

  /** The rows of a file with their index labels 0, 1, ... */
  function Enumerate(rows: seq<CsvRow>): (r: seq<Labelled>)
    ensures |r| == |rows| && forall i :: 0 <= i < |rows| ==> r[i] == Labelled(i, rows[i])
  {
    if rows == [] then [] else Enumerate(rows[..|rows| - 1]) + [Labelled(|rows| - 1, rows[|rows| - 1])]
  }

  function RowOf(x: Labelled): CsvRow {
    x.row
  }

  /** data['date'] > last_date. */
  predicate After(x: Labelled, last: Instant) {
    Rank(x.row.date) > Rank(last)
  }

  /**
   * read_csv(...).drop_duplicates(keep='last'), then, when a last date is
   * stored, the rows strictly after it. Labels are kept through both steps.
   */
  function NewRows(rows: seq<CsvRow>, last: Option<Instant>): seq<Labelled> {
    var data := DedupLastBy(Enumerate(rows), RowOf);
    if last.Some? then Filter(data, (x: Labelled) => After(x, last.value)) else data
  }

  /** A row is inserted from a file exactly when it occurs in it and is later than the last date. */
  lemma NewRowsIff(rows: seq<CsvRow>, last: Option<Instant>, row: CsvRow)
    ensures (exists x :: x in NewRows(rows, last) && x.row == row) <==>
      row in rows && (last.Some? ==> Rank(row.date) > Rank(last.value))
  {
    if exists x :: x in NewRows(rows, last) && x.row == row {
      var x :| x in NewRows(rows, last) && x.row == row;
      NewRowLabel(rows, last, x);
      NewRowAfter(rows, last, x);
    }
    if row in rows && (last.Some? ==> Rank(row.date) > Rank(last.value)) {
      NewRowsComplete(rows, last, row);
    }
  }

  /** A kept row is later than the last date. */
  lemma NewRowAfter(rows: seq<CsvRow>, last: Option<Instant>, x: Labelled)
    requires x in NewRows(rows, last)
    ensures last.Some? ==> Rank(x.row.date) > Rank(last.value)
  {
    if last.Some? {
      FilterMember(DedupLastBy(Enumerate(rows), RowOf), (y: Labelled) => After(y, last.value), x);
    }
  }

  /** Every row of the file later than the last date is kept once. */
  lemma NewRowsComplete(rows: seq<CsvRow>, last: Option<Instant>, row: CsvRow)
    requires row in rows && (last.Some? ==> Rank(row.date) > Rank(last.value))
    ensures exists x :: x in NewRows(rows, last) && x.row == row
  {
    var e := Enumerate(rows);
    var data := DedupLastBy(e, RowOf);
    var i :| 0 <= i < |rows| && rows[i] == row;
    assert RowOf(e[i]) == row;
    DedupLastHasKey(e, RowOf, row);
    var x :| x in data && RowOf(x) == row;
    if last.Some? {
      FilterMember(data, (y: Labelled) => After(y, last.value), x);
    }
  }

  /** A kept row carries the label of the last copy of that row in the file. */
  lemma NewRowLabel(rows: seq<CsvRow>, last: Option<Instant>, x: Labelled)
    requires x in NewRows(rows, last)
    ensures x.index < |rows| && rows[x.index] == x.row
    ensures forall j :: x.index < j < |rows| ==> rows[j] != x.row
  {
    var e := Enumerate(rows);
    var data := DedupLastBy(e, RowOf);
    if last.Some? {
      FilterMember(data, (y: Labelled) => After(y, last.value), x);
    }
    DedupLastMember(e, RowOf, x);
    var i :| 0 <= i < |e| && e[i] == x && LastOfKey(e, RowOf, i);
    forall j | i < j < |rows| ensures rows[j] != x.row {
      assert RowOf(e[j]) != RowOf(e[i]);
    }
  }

  /** No row is kept twice. */
  lemma NewRowsDistinct(rows: seq<CsvRow>, last: Option<Instant>)
    ensures KeysDistinct(NewRows(rows, last), RowOf)
  {
    var data := DedupLastBy(Enumerate(rows), RowOf);
    assert KeysDistinct(data, RowOf);
    if last.Some? {
      FilterDistinctBy(data, (y: Labelled) => After(y, last.value), RowOf);
    }
  }

  /** On whole days: a kept row's date is on or after the stored last date. */
  lemma NewRowsNotBefore(rows: seq<CsvRow>, d: Date, x: Labelled)
    requires x in NewRows(rows, Some(Midnight(d))) && 0 <= x.row.date.second < SecondsPerDay
    ensures Ordinal(x.row.date.date) >= Ordinal(d)
  {
    var data := DedupLastBy(Enumerate(rows), RowOf);
    FilterMember(data, (y: Labelled) => After(y, Midnight(d)), x);
  }

  /**
   * The comparison is on timestamps, the stored value a date: a row later on
   * the stored last day itself passes the filter again, and its record has
   * that same trade date.
   */
  lemma LastDayPassesAgain(d: Date, row: CsvRow)
    requires row.date.date == d && row.date.second > 0
    ensures exists x :: x in NewRows([row], Some(Midnight(d))) && RecordOf(x, "S").tradeDate == d
  {
    NewRowsIff([row], Some(Midnight(d)), row);
  }

  /** A later last date keeps fewer rows: what is new after it is new after an earlier one. */
  lemma NewRowsAntitone(rows: seq<CsvRow>, early: Option<Date>, late: Option<Date>, x: Labelled)
    requires early.Some? ==> late.Some? && Ordinal(early.value) <= Ordinal(late.value)
    requires x in NewRows(rows, if late.Some? then Some(Midnight(late.value)) else None)
    ensures x in NewRows(rows, if early.Some? then Some(Midnight(early.value)) else None)
  {
    var data := DedupLastBy(Enumerate(rows), RowOf);
    if late.Some? {
      FilterMember(data, (y: Labelled) => After(y, Midnight(late.value)), x);
      if early.Some? {
        FilterMember(data, (y: Labelled) => After(y, Midnight(early.value)), x);
      }
    }
  }

  /** What main does with one file: the new rows, inserted in batches of 1000 unless there are none. */
  function FileImported(t: seq<Record>, rows: seq<CsvRow>, symbol: string, last: Option<Instant>, rejects: Rejects): seq<Record> {
    var data := NewRows(rows, last);
    if data == [] then t else InsertAll(t, BatchesFrom(data, BatchSize, 0), symbol, rejects)
  }

  /** r was inserted from a new row of the file. */
  ghost predicate FromRows(r: Record, rows: seq<CsvRow>, symbol: string, last: Option<Instant>) {
    BuiltFrom(r, NewRows(rows, last), symbol)
  }

  /** Importing a file only appends records built from its new rows. */
  lemma FileImportedAppends(t: seq<Record>, rows: seq<CsvRow>, symbol: string, last: Option<Instant>, rejects: Rejects)
    ensures GrowsWith(t, FileImported(t, rows, symbol, last, rejects), (r: Record) => FromRows(r, rows, symbol, last))
  {
    var data := NewRows(rows, last);
    if data != [] {
      InsertAllAppends(t, BatchesFrom(data, BatchSize, 0), symbol, rejects);
      BatchesCover(data, BatchSize, 0);
      assert data[0..] == data;
    }
  }

  /** The database accepts every insert. */
  ghost predicate NeverRejects(rejects: Rejects) {
    forall a, b :: !rejects(a, b)
  }

  lemma RecordsOfAppend(a: seq<Labelled>, b: seq<Labelled>, symbol: string)
    ensures RecordsOf(a + b, symbol) == RecordsOf(a, symbol) + RecordsOf(b, symbol)
  {
    var l, r := RecordsOf(a + b, symbol), RecordsOf(a, symbol) + RecordsOf(b, symbol);
    forall i | 0 <= i < |l| ensures l[i] == r[i] {
      if i < |a| {
        assert (a + b)[i] == a[i];
      } else {
        assert (a + b)[i] == b[i - |a|];
      }
    }
  }

  /** With an accepting database the batches add exactly the records of all their rows, in order. */
  lemma {:induction false} InsertAllAccepted(t: seq<Record>, batches: seq<seq<Labelled>>, symbol: string, rejects: Rejects)
    requires NeverRejects(rejects)
    ensures InsertAll(t, batches, symbol, rejects) == t + RecordsOf(Concat(batches), symbol)
    decreases |batches|
  {
    if batches == [] {
      assert RecordsOf(Concat(batches), symbol) == [];
    } else {
      var b0, rest := batches[0], batches[1..];
      var t1 := Inserted(t, b0, symbol, rejects);
      assert t1 == t + RecordsOf(b0, symbol) by {
        if b0 == [] {
          assert RecordsOf(b0, symbol) == [];
        }
      }
      InsertAllAccepted(t1, rest, symbol, rejects);
      assert batches == [b0] + rest;
      ConcatCons(b0, rest);
      RecordsOfAppend(b0, Concat(rest), symbol);
      AppendAssoc(t, RecordsOf(b0, symbol), RecordsOf(Concat(rest), symbol));
    }
  }

  lemma AppendAssoc<T>(a: seq<T>, b: seq<T>, c: seq<T>)
    ensures (a + b) + c == a + (b + c)
  {
  }

  /** With an accepting database a file adds exactly the records of its new rows, in order. */
  lemma FileImportedAccepted(t: seq<Record>, rows: seq<CsvRow>, symbol: string, last: Option<Instant>, rejects: Rejects)
    requires NeverRejects(rejects)
    ensures FileImported(t, rows, symbol, last, rejects) == t + RecordsOf(NewRows(rows, last), symbol)
  {
    var data := NewRows(rows, last);
    if data == [] {
      assert RecordsOf(data, symbol) == [];
    } else {
      InsertAllAccepted(t, BatchesFrom(data, BatchSize, 0), symbol, rejects);
      BatchesCover(data, BatchSize, 0);
      assert data[0..] == data;
    }
  }

  // ---- the walk over data_path ----

  /** What main sees of data_path: directories, listings, and the files read_csv parses. */
  datatype ChartDisk = ChartDisk(dirs: set<string>, listings: map<string, seq<string>>, csvs: map<string, seq<CsvRow>>)

  /** os.listdir. */
  function Listing(disk: ChartDisk, p: string): seq<string> {
    if p in disk.listings then disk.listings[p] else []
  }

  const Countries: seq<string> := ["KOR", "USA"]

  /** r came from a .csv file listed in symbolPath, and from a row of it newer than last. */
  ghost predicate FromSymbolDir(r: Record, disk: ChartDisk, symbolPath: string, symbol: string, last: Option<Date>) {
    exists f :: f in Listing(disk, symbolPath) && IsCsv(f) && Join(symbolPath, f) in disk.csvs
      && FromRows(r, disk.csvs[Join(symbolPath, f)], symbol, if last.Some? then Some(Midnight(last.value)) else None)
  }

  /** A symbol directory of a country directory. */
  predicate SymbolDir(disk: ChartDisk, dataPath: string, country: string, symbol: string) {
    Join(dataPath, country) in disk.dirs
    && symbol in Listing(disk, Join(dataPath, country))
    && Join(Join(dataPath, country), symbol) in disk.dirs
  }

  /**
   * What main may add to a table t0: a record of a symbol directory under KOR
   * or USA, built from a row of one of its .csv files that is newer than the
   * symbol's last date in t0.
   */
  ghost predicate Imported(r: Record, disk: ChartDisk, dataPath: string, t0: seq<Record>) {
    exists c :: c in Countries && SymbolDir(disk, dataPath, c, r.assetName)
      && FromSymbolDir(r, disk, Join(Join(dataPath, c), r.assetName), r.assetName, LastDate(t0, r.assetName))
  }

  /** Against an earlier table, whose last date is not later, a record still counts as new. */
  lemma FromSymbolDirEarlier(r: Record, disk: ChartDisk, symbolPath: string, symbol: string, t0: seq<Record>, t1: seq<Record>)
    requires t0 <= t1 && FromSymbolDir(r, disk, symbolPath, symbol, LastDate(t1, symbol))
    ensures FromSymbolDir(r, disk, symbolPath, symbol, LastDate(t0, symbol))
  {
    LastDateMonotone(t0, t1, symbol);
    var early, late := LastDate(t0, symbol), LastDate(t1, symbol);
    var f :| f in Listing(disk, symbolPath) && IsCsv(f) && Join(symbolPath, f) in disk.csvs
      && FromRows(r, disk.csvs[Join(symbolPath, f)], symbol, if late.Some? then Some(Midnight(late.value)) else None);
    var rows := disk.csvs[Join(symbolPath, f)];
    var x :| x in NewRows(rows, if late.Some? then Some(Midnight(late.value)) else None) && r == RecordOf(x, symbol);
    NewRowsAntitone(rows, early, late, x);
  }

  /** The file loop of one symbol directory: each listed .csv file that parses, imported in order against last. */
  function FilesImported(t: seq<Record>, disk: ChartDisk, symbolPath: string, files: seq<string>, symbol: string,
                         last: Option<Instant>, rejects: Rejects): seq<Record>
    decreases |files|
  {
    if files == [] then t
    else
      var t1 := FilesImported(t, disk, symbolPath, files[..|files| - 1], symbol, last, rejects);
      var f := files[|files| - 1];
      if IsCsv(f) && Join(symbolPath, f) in disk.csvs then FileImported(t1, disk.csvs[Join(symbolPath, f)], symbol, last, rejects)
      else t1
  }

  /** r was inserted from a new row of one of the .csv files among files. */
  ghost predicate FromFiles(r: Record, disk: ChartDisk, symbolPath: string, files: seq<string>, symbol: string, last: Option<Instant>) {
    exists f :: f in files && IsCsv(f) && Join(symbolPath, f) in disk.csvs && FromRows(r, disk.csvs[Join(symbolPath, f)], symbol, last)
  }

  /** The file loop only appends, and only records built from new rows of its .csv files. */
  lemma {:induction false} FilesImportedAppends(t: seq<Record>, disk: ChartDisk, symbolPath: string, files: seq<string>,
                                                symbol: string, last: Option<Instant>, rejects: Rejects)
    ensures GrowsWith(t, FilesImported(t, disk, symbolPath, files, symbol, last, rejects),
      (r: Record) => FromFiles(r, disk, symbolPath, files, symbol, last))
    decreases |files|
  {
    if files != [] {
      var init := files[..|files| - 1];
      var f := files[|files| - 1];
      var p := (r: Record) => FromFiles(r, disk, symbolPath, files, symbol, last);
      FilesImportedAppends(t, disk, symbolPath, init, symbol, last, rejects);
      var t1 := FilesImported(t, disk, symbolPath, init, symbol, last, rejects);
      assert forall g :: g in init ==> g in files;
      GrowsWithWeaken(t, t1, (r: Record) => FromFiles(r, disk, symbolPath, init, symbol, last), p);
      if IsCsv(f) && Join(symbolPath, f) in disk.csvs {
        var rows := disk.csvs[Join(symbolPath, f)];
        FileImportedAppends(t1, rows, symbol, last, rejects);
        assert f in files;
        GrowsWithWeaken(t1, FileImported(t1, rows, symbol, last, rejects), (r: Record) => FromRows(r, rows, symbol, last), p);
        GrowsWithTrans(t, t1, FileImported(t1, rows, symbol, last, rejects), p);
      }
    }
  }

  lemma FilesImportedSnoc(t: seq<Record>, disk: ChartDisk, symbolPath: string, files: seq<string>, k: int,
                          symbol: string, last: Option<Instant>, rejects: Rejects)
    requires 0 <= k < |files|
    ensures var t1 := FilesImported(t, disk, symbolPath, files[..k], symbol, last, rejects);
      var path := Join(symbolPath, files[k]);
      FilesImported(t, disk, symbolPath, files[..k + 1], symbol, last, rejects)
        == if IsCsv(files[k]) && path in disk.csvs then FileImported(t1, disk.csvs[path], symbol, last, rejects) else t1
  {
    assert files[..k + 1][..k] == files[..k];
  }

  /** Importing one symbol directory only appends rows read from that directory. */
  lemma SymbolImportedGrows(t: seq<Record>, disk: ChartDisk, symbolPath: string, symbol: string, rejects: Rejects)
    ensures GrowsWith(t, SymbolImported(t, disk, symbolPath, symbol, rejects),
      (r: Record) => FromSymbolDir(r, disk, symbolPath, symbol, LastDate(t, symbol)))
  {
    var files := Listing(disk, symbolPath);
    var last := GetLastDate(t, symbol);
    FilesImportedAppends(t, disk, symbolPath, files, symbol, last, rejects);
    GrowsWithWeaken(t, SymbolImported(t, disk, symbolPath, symbol, rejects),
      (r: Record) => FromFiles(r, disk, symbolPath, files, symbol, last),
      (r: Record) => FromSymbolDir(r, disk, symbolPath, symbol, LastDate(t, symbol)));
  }

  /** What one symbol directory does to t: its files imported against the symbol's last date in t. */
  function SymbolImported(t: seq<Record>, disk: ChartDisk, symbolPath: string, symbol: string, rejects: Rejects): seq<Record> {
    FilesImported(t, disk, symbolPath, Listing(disk, symbolPath), symbol, GetLastDate(t, symbol), rejects)
  }

  /** The symbol loop of one country directory, in listing order. */
  function SymbolsImported(t: seq<Record>, disk: ChartDisk, countryPath: string, names: seq<string>, rejects: Rejects): seq<Record>
    decreases |names|
  {
    if names == [] then t
    else
      var t1 := SymbolsImported(t, disk, countryPath, names[..|names| - 1], rejects);
      var name := names[|names| - 1];
      if Join(countryPath, name) in disk.dirs then SymbolImported(t1, disk, Join(countryPath, name), name, rejects) else t1
  }

  /** The country loop of main over cs. */
  function CountriesImported(t: seq<Record>, disk: ChartDisk, dataPath: string, cs: seq<string>, rejects: Rejects): seq<Record>
    decreases |cs|
  {
    if cs == [] then t
    else
      var t1 := CountriesImported(t, disk, dataPath, cs[..|cs| - 1], rejects);
      var countryPath := Join(dataPath, cs[|cs| - 1]);
      if countryPath in disk.dirs then SymbolsImported(t1, disk, countryPath, Listing(disk, countryPath), rejects) else t1
  }

  class ChartDB {
    /** The AggregatedDataset table. */
    var table: seq<Record>

    constructor (initial: seq<Record>)
      ensures table == initial
    {
      table := initial;
    }

    /**
     * insert: nothing for an empty frame; otherwise the records, one per row,
     * committed together or rolled back together.
     */
    method Insert(data: seq<Labelled>, symbol: string, rejects: Rejects)
      modifies this
      ensures table == Inserted(old(table), data, symbol, rejects)
    {
      if data == [] {
        return;
      }
      var records: seq<Record> := [];
      for k := 0 to |data|
        invariant records == RecordsOf(data[..k], symbol)
      {
        records := records + [RecordOf(data[k], symbol)];
        assert data[..k + 1][..k] == data[..k];
      }
      assert data[..|data|] == data;
      if !rejects(table, records) {
        table := table + records;
      }
    }

    /** update: an empty dict changes nothing; a failed statement is rolled back. */
    method Update(data: map<Column, real>, where: Record -> bool, fails: bool)
      modifies this
      ensures |data| == 0 || fails ==> table == old(table)
      ensures |data| > 0 && !fails ==> table == Updated(old(table), data, where)
    {
      if |data| == 0 {
        return;
      }
      if !fails {
        table := Updated(table, data, where);
      }
    }

    /**
     * batch_insert: one insert per slice [start, start + batchSize). A zero
     * step makes range raise ValueError before any insert; a negative one
     * gives no slice at all.
     */
    method BatchInsert(data: seq<Labelled>, symbol: string, batchSize: int, rejects: Rejects) returns (raised: bool)
      modifies this
      ensures raised <==> batchSize == 0
      ensures batchSize <= 0 ==> table == old(table)
      ensures batchSize > 0 ==> table == InsertAll(old(table), BatchesFrom(data, batchSize, 0), symbol, rejects)
    {
      raised := batchSize == 0;
      if batchSize <= 0 {
        return;
      }
      ghost var goal := InsertAll(table, BatchesFrom(data, batchSize, 0), symbol, rejects);
      var start := 0;
      while start < |data|
        invariant 0 <= start
        invariant InsertAll(table, BatchesFrom(data, batchSize, start), symbol, rejects) == goal
        decreases |data| - start
      {
        var end := start + batchSize;
        var stop := if end < |data| then end else |data|;
        InsertAllStep(table, data, batchSize, start, stop, symbol, rejects);
        Insert(data[start..stop], symbol, rejects);
        start := end;
      }
    }

    /** The body of main's file loop, once the file has been read. */
    method ImportFile(rows: seq<CsvRow>, symbol: string, last: Option<Instant>, rejects: Rejects)
      modifies this
      ensures table == FileImported(old(table), rows, symbol, last, rejects)
    {
      var data := DedupLastBy(Enumerate(rows), RowOf);
      if last.Some? {
        data := Filter(data, (x: Labelled) => After(x, last.value));
      }
      if data == [] {
        return;
      }
      var raised := BatchInsert(data, symbol, BatchSize, rejects);
    }

    /**
     * The loop over one symbol directory: the last date is read once, then
     * every listed .csv file that parses is imported; other files, and files
     * whose reading fails, are skipped.
     */
    method ImportSymbol(disk: ChartDisk, symbolPath: string, symbol: string, rejects: Rejects)
      modifies this
      ensures GrowsWith(old(table), table, (r: Record) => FromSymbolDir(r, disk, symbolPath, symbol, LastDate(old(table), symbol)))
      ensures table == SymbolImported(old(table), disk, symbolPath, symbol, rejects)
    {
      ghost var t0 := table;
      var last := GetLastDate(table, symbol);
      var files := Listing(disk, symbolPath);
      ImportFiles(disk, symbolPath, files, symbol, last, rejects);
      SymbolImportedGrows(t0, disk, symbolPath, symbol, rejects);
    }

    /** The loop over the listed files of one symbol directory. */
    method ImportFiles(disk: ChartDisk, symbolPath: string, files: seq<string>, symbol: string,
                       last: Option<Instant>, rejects: Rejects)
      modifies this
      ensures table == FilesImported(old(table), disk, symbolPath, files, symbol, last, rejects)
    {
      ghost var t0 := table;
      for k := 0 to |files|
        invariant table == FilesImported(t0, disk, symbolPath, files[..k], symbol, last, rejects)
      {
        FilesImportedSnoc(t0, disk, symbolPath, files, k, symbol, last, rejects);
        var path := Join(symbolPath, files[k]);
        if IsCsv(files[k]) && path in disk.csvs {
          ImportFile(disk.csvs[path], symbol, last, rejects);
        }
      }
      assert files[..|files|] == files;
    }

    /** main: KOR then USA, every symbol directory of each. */
    method ImportAll(disk: ChartDisk, dataPath: string, rejects: Rejects)
      modifies this
      ensures GrowsWith(old(table), table, (r: Record) => Imported(r, disk, dataPath, old(table)))
      ensures table == CountriesImported(old(table), disk, dataPath, Countries, rejects)
    {
      ghost var t0 := table;
      ghost var p := (r: Record) => Imported(r, disk, dataPath, t0);
      for ci := 0 to |Countries|
        invariant GrowsWith(t0, table, p)
        invariant table == CountriesImported(t0, disk, dataPath, Countries[..ci], rejects)
      {
        assert Countries[..ci + 1][..ci] == Countries[..ci];
        var countryPath := Join(dataPath, Countries[ci]);
        if countryPath in disk.dirs {
          var names := Listing(disk, countryPath);
          ghost var tc := table;
          for k := 0 to |names|
            invariant GrowsWith(t0, table, p)
            invariant table == SymbolsImported(tc, disk, countryPath, names[..k], rejects)
          {
            assert names[..k + 1][..k] == names[..k];
            var symbolPath := Join(countryPath, names[k]);
            if symbolPath in disk.dirs {
              ghost var t1 := table;
              ImportSymbol(disk, symbolPath, names[k], rejects);
              ImportedFromSymbol(disk, dataPath, Countries[ci], names[k], t0, t1, table);
              GrowsWithTrans(t0, t1, table, p);
            }
          }
          assert names[..|names|] == names;
        }
      }
      assert Countries[..|Countries|] == Countries;
    }
  }

  /** What one symbol directory adds is what main may add. */
  lemma ImportedFromSymbol(disk: ChartDisk, dataPath: string, c: string, symbol: string, t0: seq<Record>, t1: seq<Record>, t2: seq<Record>)
    requires c in Countries && SymbolDir(disk, dataPath, c, symbol) && t0 <= t1
    requires GrowsWith(t1, t2, (r: Record) => FromSymbolDir(r, disk, Join(Join(dataPath, c), symbol), symbol, LastDate(t1, symbol)))
    ensures GrowsWith(t1, t2, (r: Record) => Imported(r, disk, dataPath, t0))
  {
    var sp := Join(Join(dataPath, c), symbol);
    forall i | |t1| <= i < |t2| ensures Imported(t2[i], disk, dataPath, t0) {
      var r := t2[i];
      assert FromSymbolDir(r, disk, sp, symbol, LastDate(t1, symbol));
      FromSymbolDirEarlier(r, disk, sp, symbol, t0, t1);
      var f :| f in Listing(disk, sp) && IsCsv(f) && Join(sp, f) in disk.csvs
        && FromRows(r, disk.csvs[Join(sp, f)], symbol, if LastDate(t0, symbol).Some? then Some(Midnight(LastDate(t0, symbol).value)) else None);
      assert r.assetName == symbol;
    }
  }
}
