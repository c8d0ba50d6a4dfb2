// The provider data pipeline (module/data/providers/core.py and
// module/data/providers/data_pipeline.py): time-indexed rows fetched from a
// data provider are appended to monthly chunk files under a base directory,
// read back sorted and de-duplicated, filtered by date range, and kept in a
// trimmed in-memory cache.

module ProviderPipeline {
  import opened Wrappers
  import opened Text
  import opened Calendar
  import opened Paths
  import opened Frames

  /** One row of a frame indexed by its UTC timestamp; values are the other columns. */
  datatype DataRow = DataRow(time: Instant, values: seq<real>)

  /** A line of a chunk file: the header line or one record. */
  datatype Line = Header | Record(row: DataRow)

  /** The files under the base directory and the order os.walk lists them in. */
  datatype Store = Store(files: map<string, seq<Line>>, order: seq<string>)

  /** The value a provider's start_date holds: unset, a config string, a date or a timestamp. */
  datatype Start = Unset | Text(text: string) | Day(day: Date) | Moment(moment: Instant)

  /** The default number of rows per chunk. */
  const DefaultChunkSize: int := 10000

  /** The default number of days kept in the cache. */
  const DefaultCacheDays: int := 7

  function TimeKey(r: DataRow): int {
    Rank(r.time)
  }

  function ValuesOf(r: DataRow): seq<real> {
    r.values
  }

  // ------------------------------------------------------------ file naming

  /** f"{month_start}_chunk{chunk_num}.csv". */
  function FileName(d: Date, n: nat): (f: string)
    requires Valid(d)
    ensures IsName(f)
  {
    FormatNoSep(MonthStart(d));
    Format(MonthStart(d)) + "_chunk" + NatToString(n) + ".csv"
  }

  lemma FormatNoSep(d: Date)
    requires Valid(d)
    ensures Sep !in Format(d)
  {
    var s := Format(d);
    forall i | 0 <= i < |s| ensures s[i] != Sep {
      if i != 4 && i != 7 {
        assert IsDigit(s[i]);
      }
    }
  }

  /** _get_file_path(date, chunk_num): the chunk file of date's month. */
  function FilePath(base: string, d: Date, n: nat): string
    requires Valid(d)
  {
    Join(base, FileName(d, n))
  }

  /** Dates of one month with one chunk number share a file. */
  lemma FilePathSameMonth(base: string, d: Date, e: Date, n: nat)
    requires Valid(d) && Valid(e) && d.year == e.year && d.month == e.month
    ensures FilePath(base, d, n) == FilePath(base, e, n)
  {
  }

  /** Different months or different chunk numbers never share a file, and every chunk file is a CSV file. */
  lemma FilePathInjective(base: string, d: Date, n: nat, e: Date, m: nat)
    requires Valid(d) && Valid(e) && FilePath(base, d, n) == FilePath(base, e, m)
    ensures d.year == e.year && d.month == e.month && n == m
    ensures IsCsv(FilePath(base, d, n))
  {
    var f, g := FileName(d, n), FileName(e, m);
    JoinName(base, f);
    JoinName(base, g);
    var pre := DirPrefix(base);
    assert f == (pre + f)[|pre|..] == (pre + g)[|pre|..] == g;
    assert Format(MonthStart(d)) == f[..10] == g[..10] == Format(MonthStart(e));
    FormatInjective(MonthStart(d), MonthStart(e));
    var nd, ne := NatToString(n), NatToString(m);
    assert nd == f[16..|f| - 4] == g[16..|g| - 4] == ne;
    NatToStringInjective(n, m);
    assert (pre + f)[|pre + f| - 4..] == f[|f| - 4..] == ".csv";
  }

  // ----------------------------------------------------------- stored lines

  /** The records of a file, in order. */
  function Records(lines: seq<Line>): seq<DataRow> {
    if lines == [] then []
    else
      var x := lines[|lines| - 1];
      Records(lines[..|lines| - 1]) + (if x.Record? then [x.row] else [])
  }

  lemma {:induction false} RecordsAppend(a: seq<Line>, b: seq<Line>)
    ensures Records(a + b) == Records(a) + Records(b)
  {
    if b != [] {
      var init := b[..|b| - 1];
      RecordsAppend(a, init);
      assert (a + b)[..|a + b| - 1] == a + init;
      assert (a + b)[|a + b| - 1] == b[|b| - 1];
    } else {
      assert a + b == a;
    }
  }

  /** to_csv(index=True) of rows without a header. */
  function Recs(rows: seq<DataRow>): (lines: seq<Line>)
    ensures |lines| == |rows| && forall i :: 0 <= i < |rows| ==> lines[i] == Record(rows[i])
  {
    seq(|rows|, i requires 0 <= i < |rows| => Record(rows[i]))
  }

  /** Rows written as records are read back unchanged, behind a header or not. */
  lemma {:induction false} RecordsOfRecs(rows: seq<DataRow>)
    ensures Records(Recs(rows)) == rows
    ensures Records([Header] + Recs(rows)) == rows
  {
    if rows != [] {
      var init := rows[..|rows| - 1];
      RecordsOfRecs(init);
      assert Recs(rows)[..|rows| - 1] == Recs(init);
    }
    RecordsAppend([Header], Recs(rows));
    assert Records([Header]) == Records([]) + [];
  }

  /** Each file starts with the one header line it has; the rest are records. */
  predicate WellFormedFile(lines: seq<Line>) {
    |lines| > 0 && lines[0] == Header && forall i :: 1 <= i < |lines| ==> lines[i].Record?
  }

  predicate WellFormedStore(st: Store) {
    Distinct(st.order)
    && (forall p :: p in st.files ==> p in st.order)
    && (forall i :: 0 <= i < |st.order| ==> st.order[i] in st.files)
    && (forall p :: p in st.files ==> WellFormedFile(st.files[p]))
  }

  /** Every stored timestamp is a valid one. */
  predicate TimesValid(st: Store) {
    forall p, i :: p in st.files && 0 <= i < |st.files[p]| && st.files[p][i].Record? ==>
      ValidInstant(st.files[p][i].row.time)
  }

  /** to_csv(file, mode="a", header=not os.path.exists(file)). */
  function WriteOne(st: Store, p: string, rows: seq<DataRow>): Store {
    if p in st.files then Store(st.files[p := st.files[p] + Recs(rows)], st.order)
    else Store(st.files[p := [Header] + Recs(rows)], st.order + [p])
  }

  /** The rows a file contributes when read: records of an existing .csv file. */
  function FileRows(files: map<string, seq<Line>>, p: string): seq<DataRow> {
    if p in files && IsCsv(p) then Records(files[p]) else []
  }

  /** All records of all .csv files, in walk order. */
  function RowsOf(files: map<string, seq<Line>>, order: seq<string>): seq<DataRow> {
    if order == [] then []
    else RowsOf(files, order[..|order| - 1]) + FileRows(files, order[|order| - 1])
  }

  lemma {:induction false} RowsOfFrame(files: map<string, seq<Line>>, other: map<string, seq<Line>>, order: seq<string>)
    requires forall i :: 0 <= i < |order| ==> FileRows(files, order[i]) == FileRows(other, order[i])
    ensures RowsOf(files, order) == RowsOf(other, order)
  {
    if order != [] {
      RowsOfFrame(files, other, order[..|order| - 1]);
    }
  }

  /** Appending to the file read last adds its new records at the end. */
  lemma GrowLast(files: map<string, seq<Line>>, order: seq<string>, p: string, extra: seq<Line>)
    requires p in files && IsCsv(p) && Distinct(order) && order != [] && order[|order| - 1] == p
    ensures RowsOf(files[p := files[p] + extra], order) == RowsOf(files, order) + Records(extra)
  {
    var grown := files[p := files[p] + extra];
    var init := order[..|order| - 1];
    forall i | 0 <= i < |init| ensures FileRows(files, init[i]) == FileRows(grown, init[i]) {
      assert init[i] == order[i] != order[|order| - 1];
    }
    RowsOfFrame(files, grown, init);
    RecordsAppend(files[p], extra);
  }

  lemma {:induction false} RowsOfGrow(files: map<string, seq<Line>>, order: seq<string>, p: string, extra: seq<Line>)
    requires p in files && IsCsv(p) && Distinct(order) && p in order
    ensures multiset(RowsOf(files[p := files[p] + extra], order)) == multiset(RowsOf(files, order)) + multiset(Records(extra))
  {
    var grown := files[p := files[p] + extra];
    var init := order[..|order| - 1];
    var last := order[|order| - 1];
    if last == p {
      GrowLast(files, order, p, extra);
    } else {
      assert p in init;
      RowsOfGrow(files, init, p, extra);
      calc {
        multiset(RowsOf(grown, order));
        multiset(RowsOf(grown, init)) + multiset(FileRows(files, last));
        multiset(RowsOf(files, init)) + multiset(Records(extra)) + multiset(FileRows(files, last));
      }
    }
  }

  /** Writing a chunk keeps every file a header followed by records: the header only goes into a new file. */
  lemma WriteOneWellFormed(st: Store, p: string, rows: seq<DataRow>)
    requires WellFormedStore(st)
    ensures WellFormedStore(WriteOne(st, p, rows))
  {
    var w := WriteOne(st, p, rows);
    if p in st.files {
      var lines := w.files[p];
      forall i | 1 <= i < |lines| ensures lines[i].Record? {
        if i >= |st.files[p]| {
          assert lines[i] == Recs(rows)[i - |st.files[p]|];
        }
      }
    } else {
      forall i | 1 <= i < |w.files[p]| ensures w.files[p][i].Record? {
        assert w.files[p][i] == Recs(rows)[i - 1];
      }
      forall i, j | 0 <= i < j < |w.order| ensures w.order[i] != w.order[j] {
        if j == |w.order| - 1 {
          assert w.order[i] == st.order[i] && st.order[i] in st.files;
        }
      }
    }
  }

  /** Writing a chunk adds exactly its rows to what is read back. */
  lemma WriteOneRows(st: Store, p: string, rows: seq<DataRow>)
    requires WellFormedStore(st) && IsCsv(p)
    ensures multiset(RowsOf(WriteOne(st, p, rows).files, WriteOne(st, p, rows).order))
      == multiset(RowsOf(st.files, st.order)) + multiset(rows)
  {
    RecordsOfRecs(rows);
    if p in st.files {
      assert p in st.order;
      RowsOfGrow(st.files, st.order, p, Recs(rows));
    } else {
      AppendNewFile(st.files, st.order, p, [Header] + Recs(rows));
    }
  }

  lemma AppendNewFile(files: map<string, seq<Line>>, order: seq<string>, p: string, lines: seq<Line>)
    requires p !in files && IsCsv(p)
    requires forall i :: 0 <= i < |order| ==> order[i] in files
    ensures RowsOf(files[p := lines], order + [p]) == RowsOf(files, order) + Records(lines)
  {
    var w := files[p := lines];
    forall i | 0 <= i < |order| ensures FileRows(files, order[i]) == FileRows(w, order[i]) {
      assert order[i] != p;
    }
    RowsOfFrame(files, w, order);
    assert (order + [p])[..|order|] == order;
  }

  // ----------------------------------------------------------------- chunks

  function Min(a: int, b: int): int {
    if a < b then a else b
  }

  /** The slices data.iloc[:chunk_size] the saving loop cuts off one after another. */
  function Chunks(data: seq<DataRow>, size: int): seq<seq<DataRow>>
    requires size > 0
    decreases |data|
  {
    if data == [] then [] else [data[..Min(size, |data|)]] + Chunks(data[Min(size, |data|)..], size)
  }

  /** The chunks are non-empty and at most size long. */
  lemma {:induction false} ChunksBounded(data: seq<DataRow>, size: int)
    requires size > 0
    ensures forall k :: 0 <= k < |Chunks(data, size)| ==> 0 < |Chunks(data, size)[k]| <= size
    decreases |data|
  {
    if data != [] {
      var c := data[..Min(size, |data|)];
      var rest := data[Min(size, |data|)..];
      ChunksBounded(rest, size);
      var cs := Chunks(data, size);
      assert cs == [c] + Chunks(rest, size);
      forall k | 0 < k < |cs| ensures 0 < |cs[k]| <= size {
        assert cs[k] == Chunks(rest, size)[k - 1];
      }
    }
  }

  /** Together the chunks are the data. */
  lemma {:induction false} ChunksConcat(data: seq<DataRow>, size: int)
    requires size > 0
    ensures Concat(Chunks(data, size)) == data
    decreases |data|
  {
    if data != [] {
      var c := data[..Min(size, |data|)];
      var rest := data[Min(size, |data|)..];
      ChunksConcat(rest, size);
      assert Chunks(data, size) == [c] + Chunks(rest, size);
      ConcatCons(c, Chunks(rest, size));
      assert data == c + rest;
    }
  }

  /** Every row of every chunk comes from the data. */
  lemma {:induction false} ChunksFrom(data: seq<DataRow>, size: int, k: int, i: int)
    requires size > 0 && 0 <= k < |Chunks(data, size)| && 0 <= i < |Chunks(data, size)[k]|
    ensures Chunks(data, size)[k][i] in data
    decreases |data|
  {
    var rest := data[Min(size, |data|)..];
    if k > 0 {
      ChunksFrom(rest, size, k - 1, i);
    }
  }

  predicate ChunksValid(chunks: seq<seq<DataRow>>) {
    forall k :: 0 <= k < |chunks| ==> |chunks[k]| > 0 && ValidInstant(chunks[k][0].time)
  }

  /** Every chunk of data with valid timestamps is non-empty and starts with a valid timestamp. */
  lemma ChunksAllValid(data: seq<DataRow>, size: int)
    requires size > 0
    requires RowsValid(data)
    ensures ChunksValid(Chunks(data, size))
  {
    var chunks: seq<seq<DataRow>> := Chunks(data, size);
    ChunksBounded(data, size);
    forall k: int | 0 <= k < |chunks| ensures |chunks[k]| > 0 && ValidInstant(chunks[k][0].time) {
      ChunksFrom(data, size, k, 0);
    }
  }

  /** One step of the saving loop: the first chunk is valid and so are the chunks of what is left. */
  lemma ChunksHead(rest: seq<DataRow>, size: int)
    requires size > 0 && rest != [] && ChunksValid(Chunks(rest, size))
    ensures Chunks(rest, size) == [rest[..Min(size, |rest|)]] + Chunks(rest[Min(size, |rest|)..], size)
    ensures ValidInstant(rest[0].time)
    ensures ChunksValid(Chunks(rest[Min(size, |rest|)..], size))
  {
    var cs := Chunks(rest, size);
    var c, tail := rest[..Min(size, |rest|)], Chunks(rest[Min(size, |rest|)..], size);
    assert cs == [c] + tail;
    assert cs[0][0] == rest[0];
    forall k | 0 <= k < |tail| ensures |tail[k]| > 0 && ValidInstant(tail[k][0].time) {
      assert tail[k] == cs[k + 1];
    }
  }

  /** Chunk k goes to the file of its first row's month with chunk number k. */
  function WriteChunks(st: Store, base: string, chunks: seq<seq<DataRow>>): Store
    requires ChunksValid(chunks)
  {
    if chunks == [] then st
    else
      var k := |chunks| - 1;
      WriteOne(WriteChunks(st, base, chunks[..k]), FilePath(base, chunks[k][0].time.date, k), chunks[k])
  }

  /** The file chunk k of chunks is written to. */
  function ChunkPath(base: string, chunks: seq<seq<DataRow>>, k: int): string
    requires ChunksValid(chunks) && 0 <= k < |chunks|
  {
    FilePath(base, chunks[k][0].time.date, k)
  }

  /** Writing the chunks one after another is writing all but the last, then the last. */
  lemma WriteChunksLast(st: Store, base: string, chunks: seq<seq<DataRow>>)
    requires ChunksValid(chunks) && chunks != []
    ensures ChunksValid(chunks[..|chunks| - 1])
    ensures IsCsv(ChunkPath(base, chunks, |chunks| - 1))
    ensures WriteChunks(st, base, chunks)
      == WriteOne(WriteChunks(st, base, chunks[..|chunks| - 1]), ChunkPath(base, chunks, |chunks| - 1), chunks[|chunks| - 1])
    ensures Concat(chunks) == Concat(chunks[..|chunks| - 1]) + chunks[|chunks| - 1]
  {
    var d := chunks[|chunks| - 1][0].time.date;
    FilePathInjective(base, d, |chunks| - 1, d, |chunks| - 1);
  }

  /** Saving keeps the store well formed. */
  lemma {:induction false} WriteChunksWellFormed(st: Store, base: string, chunks: seq<seq<DataRow>>)
    requires WellFormedStore(st) && ChunksValid(chunks)
    ensures WellFormedStore(WriteChunks(st, base, chunks))
  {
    if chunks != [] {
      var k := |chunks| - 1;
      WriteChunksLast(st, base, chunks);
      WriteChunksWellFormed(st, base, chunks[..k]);
      WriteOneWellFormed(WriteChunks(st, base, chunks[..k]), ChunkPath(base, chunks, k), chunks[k]);
    }
  }

  /** The rows read back after saving grow by exactly the saved rows. */
  lemma {:induction false} WriteChunksRows(st: Store, base: string, chunks: seq<seq<DataRow>>)
    requires WellFormedStore(st) && ChunksValid(chunks)
    ensures multiset(RowsOf(WriteChunks(st, base, chunks).files, WriteChunks(st, base, chunks).order))
      == multiset(RowsOf(st.files, st.order)) + multiset(Concat(chunks))
  {
    if chunks != [] {
      var k := |chunks| - 1;
      WriteChunksLast(st, base, chunks);
      WriteChunksRows(st, base, chunks[..k]);
      var before := WriteChunks(st, base, chunks[..k]);
      WriteChunksWellFormed(st, base, chunks[..k]);
      WriteOneRows(before, ChunkPath(base, chunks, k), chunks[k]);
    }
  }

  /** Saving data adds exactly its rows to what is read back. */
  lemma SavedRows(st: Store, base: string, data: seq<DataRow>, size: int)
    requires WellFormedStore(st) && size > 0 && ChunksValid(Chunks(data, size))
    ensures multiset(RowsOf(WriteChunks(st, base, Chunks(data, size)).files, WriteChunks(st, base, Chunks(data, size)).order))
      == multiset(RowsOf(st.files, st.order)) + multiset(data)
  {
    WriteChunksRows(st, base, Chunks(data, size));
    ChunksConcat(data, size);
  }

  /**
   * Saving the same rows a second time, as each realtime round does, leaves
   * the set of rows get_all_data loads as it was after the first save.
   */
  lemma SaveTwiceSameRows(st: Store, base: string, data: seq<DataRow>, size: int)
    requires WellFormedStore(st) && size > 0 && ChunksValid(Chunks(data, size))
    ensures var once := WriteChunks(st, base, Chunks(data, size));
      forall x :: x in Loaded(true, WriteChunks(once, base, Chunks(data, size))) <==> x in Loaded(true, once)
  {
    var once := WriteChunks(st, base, Chunks(data, size));
    var twice := WriteChunks(once, base, Chunks(data, size));
    SavedRows(st, base, data, size);
    WriteChunksWellFormed(st, base, Chunks(data, size));
    SavedRows(once, base, data, size);
    forall x ensures x in RowsOf(twice.files, twice.order) <==> x in RowsOf(once.files, once.order) {
      assert x in RowsOf(twice.files, twice.order) <==> x in multiset(RowsOf(twice.files, twice.order));
      assert x in RowsOf(once.files, once.order) <==> x in multiset(RowsOf(once.files, once.order));
      assert x in data <==> x in multiset(data);
    }
  }

  /** Appending rows with valid timestamps keeps every stored timestamp valid. */
  lemma WriteOneTimes(st: Store, p: string, rows: seq<DataRow>)
    requires TimesValid(st) && RowsValid(rows)
    ensures TimesValid(WriteOne(st, p, rows))
  {
    var w := WriteOne(st, p, rows);
    forall q, i | q in w.files && 0 <= i < |w.files[q]| && w.files[q][i].Record?
      ensures ValidInstant(w.files[q][i].row.time)
    {
      if q == p {
        if p in st.files {
          if i >= |st.files[p]| {
            assert w.files[q][i] == Recs(rows)[i - |st.files[p]|];
          }
        } else {
          assert w.files[q][i] == ([Header] + Recs(rows))[i];
        }
      }
    }
  }

  lemma {:induction false} WriteChunksTimes(st: Store, base: string, chunks: seq<seq<DataRow>>)
    requires TimesValid(st) && ChunksValid(chunks)
    requires forall k :: 0 <= k < |chunks| ==> RowsValid(chunks[k])
    ensures TimesValid(WriteChunks(st, base, chunks))
  {
    if chunks != [] {
      var k := |chunks| - 1;
      WriteChunksTimes(st, base, chunks[..k]);
      WriteOneTimes(WriteChunks(st, base, chunks[..k]), FilePath(base, chunks[k][0].time.date, k), chunks[k]);
    }
  }

  /** Saving rows with valid timestamps keeps the store well formed and every stored timestamp valid. */
  lemma SavedValid(st: Store, base: string, data: seq<DataRow>, size: int)
    requires WellFormedStore(st) && TimesValid(st) && size > 0 && RowsValid(data)
    ensures ChunksValid(Chunks(data, size))
    ensures WellFormedStore(WriteChunks(st, base, Chunks(data, size)))
    ensures TimesValid(WriteChunks(st, base, Chunks(data, size)))
  {
    var chunks: seq<seq<DataRow>> := Chunks(data, size);
    ChunksAllValid(data, size);
    forall k: int | 0 <= k < |chunks| ensures RowsValid(chunks[k]) {
      forall i | 0 <= i < |chunks[k]| ensures ValidInstant(chunks[k][i].time) {
        ChunksFrom(data, size, k, i);
      }
    }
    WriteChunksTimes(st, base, chunks);
    WriteChunksWellFormed(st, base, chunks);
  }

  // ----------------------------------------------------------- reading back

  /**
   * get_all_data as written: sort_index().drop_duplicates(keep="last"), where
   * drop_duplicates compares the value columns only and ignores the index.
   */
  function AllDataAsWritten(rows: seq<DataRow>): seq<DataRow> {
    DedupLastBy(SortBy(rows, TimeKey), ValuesOf)
  }

  /** Two bars at different times with the same values: the as-written read keeps only one of them. */
  lemma AsWrittenDropsEqualBars(t: Instant, u: Instant, v: seq<real>)
    requires Rank(t) < Rank(u)
    ensures |AllDataAsWritten([DataRow(t, v), DataRow(u, v)])| == 1
  {
    var rows := [DataRow(t, v), DataRow(u, v)];
    var sorted := SortBy(rows, TimeKey);
    var r := AllDataAsWritten(rows);
    assert DataRow(t, v) in multiset(sorted);
    assert HasKey(sorted, ValuesOf, v);
    assert exists j :: 0 <= j < |r| && ValuesOf(r[j]) == v;
    assert forall j :: 0 <= j < |sorted| ==> ValuesOf(sorted[j]) == v by {
      forall j | 0 <= j < |sorted| ensures ValuesOf(sorted[j]) == v {
        assert sorted[j] in multiset(rows);
      }
    }
  }

  /** get_all_data with whole rows (index included) compared: sorted by time, each stored row once. */
  function AllData(rows: seq<DataRow>): (r: seq<DataRow>)
    ensures SortedBy(r, TimeKey)
    ensures Distinct(r)
    ensures forall x :: x in r <==> x in rows
  {
    var sorted := SortBy(rows, TimeKey);
    assert forall x :: x in sorted <==> x in multiset(sorted);
    var r := DedupLast(sorted);
    DedupLastSorted(sorted, TimeKey);
    r
  }

  /** The newest row of a non-empty sequence. */
  function LatestRow(rows: seq<DataRow>): (r: DataRow)
    requires rows != []
    ensures r in rows && forall i :: 0 <= i < |rows| ==> Rank(rows[i].time) <= Rank(r.time)
  {
    if |rows| == 1 then rows[0]
    else
      var m := LatestRow(rows[1..]);
      assert forall i :: 1 <= i < |rows| ==> rows[i] == rows[1..][i - 1];
      if Rank(rows[0].time) > Rank(m.time) then rows[0] else m
  }

  function AtOrAfter(rows: seq<DataRow>, t: Instant): seq<DataRow> {
    Filter(rows, (r: DataRow) => Rank(r.time) >= Rank(t))
  }

  function AtOrBefore(rows: seq<DataRow>, t: Instant): seq<DataRow> {
    Filter(rows, (r: DataRow) => Rank(r.time) <= Rank(t))
  }

  function After(rows: seq<DataRow>, t: Instant): seq<DataRow> {
    Filter(rows, (r: DataRow) => Rank(r.time) > Rank(t))
  }

  /** Rows at or after the cache cutoff, given as a timestamp rank. */
  function NotBefore(rows: seq<DataRow>, cutoff: int): seq<DataRow> {
    Filter(rows, (r: DataRow) => TimeKey(r) >= cutoff)
  }

  /** get_data_range on the loaded data: both bounds inclusive, a missing bound does not filter. */
  function DataRange(all: seq<DataRow>, start: Option<Instant>, end: Option<Instant>): seq<DataRow> {
    if all == [] then []
    else
      var a := if start.Some? then AtOrAfter(all, start.value) else all;
      if end.Some? then AtOrBefore(a, end.value) else a
  }

  /** A row is in the range result exactly when it is loaded and lies within both given bounds. */
  lemma DataRangeMember(all: seq<DataRow>, start: Option<Instant>, end: Option<Instant>, x: DataRow)
    ensures x in DataRange(all, start, end) <==>
      x in all && (start.Some? ==> Rank(x.time) >= Rank(start.value)) && (end.Some? ==> Rank(x.time) <= Rank(end.value))
  {
    if all != [] {
      var a := if start.Some? then AtOrAfter(all, start.value) else all;
      if start.Some? {
        FilterMember(all, (r: DataRow) => Rank(r.time) >= Rank(start.value), x);
      }
      if end.Some? {
        FilterMember(a, (r: DataRow) => Rank(r.time) <= Rank(end.value), x);
      }
    }
  }

  /** The range result keeps the loaded order, so it is sorted by time. */
  lemma DataRangeSorted(all: seq<DataRow>, start: Option<Instant>, end: Option<Instant>)
    requires SortedBy(all, TimeKey)
    ensures SortedBy(DataRange(all, start, end), TimeKey)
  {
    if all != [] {
      var a := if start.Some? then AtOrAfter(all, start.value) else all;
      if start.Some? {
        FilterSorted(all, (r: DataRow) => Rank(r.time) >= Rank(start.value), TimeKey);
      }
      if end.Some? {
        FilterSorted(a, (r: DataRow) => Rank(r.time) <= Rank(end.value), TimeKey);
      }
    }
  }

  /** A directory named like a date before the cutoff day number. */
  predicate Expired(dir: string, cutoff: int) {
    var d := ParseIso(Basename(dir));
    d.Some? && Ordinal(d.value) < cutoff
  }

  /** The directories clean_old_data leaves in place: those not named like a date before the cutoff. */
  function Kept(dirs: seq<string>, cutoff: int): seq<string> {
    if dirs == [] then []
    else
      var d := dirs[|dirs| - 1];
      Kept(dirs[..|dirs| - 1], cutoff) + (if Expired(d, cutoff) then [] else [d])
  }

  /** The store without the files directly inside dir. */
  function StoreWithout(st: Store, dir: string): Store {
    Store(map p | p in st.files && Dirname(p) != dir :: st.files[p],
          Filter(st.order, (p: string) => Dirname(p) != dir))
  }

  lemma StoreWithoutWellFormed(st: Store, dir: string)
    requires WellFormedStore(st) && TimesValid(st)
    ensures WellFormedStore(StoreWithout(st, dir)) && TimesValid(StoreWithout(st, dir))
  {
    var w := StoreWithout(st, dir);
    FilterDistinct(st.order, (p: string) => Dirname(p) != dir);
    forall p | p in w.files ensures p in w.order {
      FilterMember(st.order, (p: string) => Dirname(p) != dir, p);
    }
    forall i | 0 <= i < |w.order| ensures w.order[i] in w.files {
      FilterMember(st.order, (p: string) => Dirname(p) != dir, w.order[i]);
    }
    StoreWithoutTimes(st, dir);
  }

  lemma StoreWithoutTimes(st: Store, dir: string)
    requires TimesValid(st)
    ensures TimesValid(StoreWithout(st, dir))
  {
  }

  /** clean_old_data's effect on the store: the files of every expired directory among dirs are gone. */
  function CleanedStore(st: Store, dirs: seq<string>, cutoff: int): Store {
    if dirs == [] then st
    else
      var s := CleanedStore(st, dirs[..|dirs| - 1], cutoff);
      if Expired(dirs[|dirs| - 1], cutoff) then StoreWithout(s, dirs[|dirs| - 1]) else s
  }

  /** A file survives cleaning exactly when its directory is not an expired one, and its lines are untouched. */
  lemma {:induction false} CleanedStoreFiles(st: Store, dirs: seq<string>, cutoff: int, p: string)
    ensures p in CleanedStore(st, dirs, cutoff).files <==>
      p in st.files && !(Dirname(p) in dirs && Expired(Dirname(p), cutoff))
    ensures p in CleanedStore(st, dirs, cutoff).files ==> CleanedStore(st, dirs, cutoff).files[p] == st.files[p]
  {
    if dirs != [] {
      CleanedStoreFiles(st, dirs[..|dirs| - 1], cutoff, p);
      assert dirs == dirs[..|dirs| - 1] + [dirs[|dirs| - 1]];
    }
  }

  lemma {:induction false} CleanedStoreWellFormed(st: Store, dirs: seq<string>, cutoff: int)
    requires WellFormedStore(st) && TimesValid(st)
    ensures WellFormedStore(CleanedStore(st, dirs, cutoff)) && TimesValid(CleanedStore(st, dirs, cutoff))
  {
    if dirs != [] {
      CleanedStoreWellFormed(st, dirs[..|dirs| - 1], cutoff);
      StoreWithoutWellFormed(CleanedStore(st, dirs[..|dirs| - 1], cutoff), dirs[|dirs| - 1]);
    }
  }

  /** All rows of all stored .csv files, as get_all_data loads them; empty when the base directory is gone. */
  function Loaded(present: bool, st: Store): (r: seq<DataRow>)
    ensures SortedBy(r, TimeKey) && Distinct(r)
    ensures !present ==> r == []
    ensures present ==> forall x :: x in r <==> x in RowsOf(st.files, st.order)
  {
    if !present then [] else AllData(RowsOf(st.files, st.order))
  }

  /** Rows loaded from a store whose timestamps are valid have valid timestamps. */
  lemma LoadedTimesValid(present: bool, st: Store)
    requires TimesValid(st)
    ensures RowsValid(Loaded(present, st))
  {
    var all := Loaded(present, st);
    forall i | 0 <= i < |all| ensures ValidInstant(all[i].time) {
      RowsOfTimes(st.files, st.order, all[i]);
    }
  }

  /** get_latest_date: the date of the newest loaded row, None when nothing is loaded. */
  function LatestDate(all: seq<DataRow>): (d: Option<Date>)
    ensures d.None? <==> all == []
    ensures d.Some? ==> exists i :: (0 <= i < |all| && all[i].time.date == d.value
      && forall j :: 0 <= j < |all| ==> Rank(all[j].time) <= Rank(all[i].time))
  {
    if all == [] then None
    else
      var r := LatestRow(all);
      var i :| 0 <= i < |all| && all[i] == r;
      Some(r.time.date)
  }

  /** The start dates update_to_latest sets: the days after first, one by one. */
  predicate DaySteps(first: Date, starts: seq<Date>) {
    forall i :: 0 <= i < |starts| ==> Calendar.Valid(starts[i]) && Ordinal(starts[i]) == Ordinal(first) + i + 1
  }

  /**
   * update_to_latest's walk from first towards today: consecutive start days,
   * one fetch each, every fetch but the last non-empty, and the walk ends at
   * today or at the first empty fetch.
   */
  ghost predicate CaughtUp(first: Date, today: Date, starts: seq<Date>, fetched: seq<seq<DataRow>>) {
    var span := if Ordinal(today) > Ordinal(first) then Ordinal(today) - Ordinal(first) else 0;
    |starts| <= span && DaySteps(first, starts) && |fetched| == |starts|
    && (forall k :: 0 <= k < |fetched| - 1 ==> fetched[k] != [])
    && (|starts| == span || (fetched != [] && fetched[|fetched| - 1] == []))
  }

  /** The exit of update_to_latest's loop: today was reached, or the last fetch came back empty. */
  lemma CaughtUpAtExit(first: Date, today: Date, d: Date, starts: seq<Date>, fetched: seq<seq<DataRow>>, stopped: bool)
    requires Ordinal(d) == Ordinal(first) + |starts| && (starts != [] ==> Ordinal(d) <= Ordinal(today))
    requires DaySteps(first, starts) && |fetched| == |starts|
    requires stopped ==> starts != [] && fetched[|fetched| - 1] == [] && forall k :: 0 <= k < |fetched| - 1 ==> fetched[k] != []
    requires !stopped ==> Ordinal(d) >= Ordinal(today) && forall k :: 0 <= k < |fetched| ==> fetched[k] != []
    ensures CaughtUp(first, today, starts, fetched)
  {
  }

  lemma DayStepsSnoc(first: Date, starts: seq<Date>, d: Date)
    requires DaySteps(first, starts) && Calendar.Valid(d) && Ordinal(d) == Ordinal(first) + |starts| + 1
    ensures DaySteps(first, starts + [d])
  {
  }

  /** The store after _save_data of got: unchanged when nothing was fetched. */
  function SavedStore(st: Store, base: string, size: int, got: seq<DataRow>): Store
    requires size > 0 && ChunksValid(Chunks(got, size))
  {
    if got == [] then st else WriteChunks(st, base, Chunks(got, size))
  }

  /**
   * One fetch of update_to_latest's walk: the fetch keeps the provider's rows
   * newer than everything in st, and saving them gives st'.
   */
  ghost predicate FetchStep(rows: seq<DataRow>, present: bool, base: string, size: int,
                            st: Store, got: seq<DataRow>, st': Store) {
    size > 0 && got == Fresh(Loaded(present, st), rows)
    && ChunksValid(Chunks(got, size)) && st' == SavedStore(st, base, size, got)
  }

  /** Fetch k of update_to_latest's walk goes from stores[k] to stores[k + 1] at day starts[k]. */
  ghost predicate DayFetchAt(feed: Start -> seq<DataRow>, present: bool, base: string, size: int,
                             starts: seq<Date>, fetched: seq<seq<DataRow>>, stores: seq<Store>, k: int) {
    0 <= k < |starts| && k < |fetched| && k + 1 < |stores|
    && FetchStep(feed(Day(starts[k])), present, base, size, stores[k], fetched[k], stores[k + 1])
  }

  /** The fetches of update_to_latest's walk, one per start day. */
  ghost predicate DayFetches(feed: Start -> seq<DataRow>, present: bool, base: string, size: int,
                             starts: seq<Date>, fetched: seq<seq<DataRow>>, stores: seq<Store>) {
    |fetched| == |starts| && |stores| == |starts| + 1
    && forall k :: 0 <= k < |starts| ==> DayFetchAt(feed, present, base, size, starts, fetched, stores, k)
  }

  /** A fetch step recorded at index k of one walk is recorded at index k of another walk with the same entries there. */
  lemma DayFetchAtMoved(feed: Start -> seq<DataRow>, present: bool, base: string, size: int,
                        starts: seq<Date>, fetched: seq<seq<DataRow>>, stores: seq<Store>,
                        starts': seq<Date>, fetched': seq<seq<DataRow>>, stores': seq<Store>, k: int)
    requires DayFetchAt(feed, present, base, size, starts, fetched, stores, k)
    requires k < |starts'| && k < |fetched'| && k + 1 < |stores'|
    requires starts'[k] == starts[k] && fetched'[k] == fetched[k] && stores'[k] == stores[k] && stores'[k + 1] == stores[k + 1]
    ensures DayFetchAt(feed, present, base, size, starts', fetched', stores', k)
  {
  }

  lemma DayFetchesSnoc(feed: Start -> seq<DataRow>, present: bool, base: string, size: int,
                       starts: seq<Date>, fetched: seq<seq<DataRow>>, stores: seq<Store>,
                       d: Date, got: seq<DataRow>, st: Store)
    requires DayFetches(feed, present, base, size, starts, fetched, stores)
    requires FetchStep(feed(Day(d)), present, base, size, stores[|starts|], got, st)
    ensures DayFetches(feed, present, base, size, starts + [d], fetched + [got], stores + [st])
  {
    var s', f', t' := starts + [d], fetched + [got], stores + [st];
    forall k | 0 <= k < |starts| ensures DayFetchAt(feed, present, base, size, s', f', t', k) {
      DayFetchAtMoved(feed, present, base, size, starts, fetched, stores, s', f', t', k);
    }
    assert DayFetchAt(feed, present, base, size, s', f', t', |starts|) by {
      assert s'[|starts|] == d && t'[|starts|] == stores[|starts|] && f'[|starts|] == got && t'[|starts| + 1] == st;
    }
  }

  /** A fetch step determines what is kept and the store after it. */
  lemma FetchStepFunctional(rows: seq<DataRow>, present: bool, base: string, size: int,
                            st: Store, g1: seq<DataRow>, st1: Store, g2: seq<DataRow>, st2: Store)
    requires FetchStep(rows, present, base, size, st, g1, st1) && FetchStep(rows, present, base, size, st, g2, st2)
    ensures g1 == g2 && st1 == st2
  {
  }

  /** Two walks from the same store and the same first day agree on their first k steps. */
  /** Two walks that reach the same store at their i-th start agree on step i. */
  lemma WalkStepAgrees(feed: Start -> seq<DataRow>, present: bool, base: string, size: int, first: Date,
                       s1: seq<Date>, f1: seq<seq<DataRow>>, t1: seq<Store>,
                       s2: seq<Date>, f2: seq<seq<DataRow>>, t2: seq<Store>, i: nat)
    requires DaySteps(first, s1) && DayFetchAt(feed, present, base, size, s1, f1, t1, i)
    requires DaySteps(first, s2) && DayFetchAt(feed, present, base, size, s2, f2, t2, i)
    requires t1[i] == t2[i]
    ensures s1[i] == s2[i] && f1[i] == f2[i] && t1[i + 1] == t2[i + 1]
  {
    Calendar.OrdinalInjective(s1[i], s2[i]);
    FetchStepFunctional(feed(Day(s1[i])), present, base, size, t1[i], f1[i], t1[i + 1], f2[i], t2[i + 1]);
  }

  /** Two walks from the same store and the same first day agree on their first k steps. */
  lemma {:induction false} WalkPrefix(feed: Start -> seq<DataRow>, present: bool, base: string, size: int, first: Date,
                                      s1: seq<Date>, f1: seq<seq<DataRow>>, t1: seq<Store>,
                                      s2: seq<Date>, f2: seq<seq<DataRow>>, t2: seq<Store>, k: nat)
    requires DaySteps(first, s1) && DayFetches(feed, present, base, size, s1, f1, t1)
    requires DaySteps(first, s2) && DayFetches(feed, present, base, size, s2, f2, t2)
    requires t1[0] == t2[0] && k <= |s1| && k <= |s2|
    ensures forall j :: 0 <= j <= k ==> t1[j] == t2[j]
    ensures forall j :: 0 <= j < k ==> s1[j] == s2[j] && f1[j] == f2[j]
  {
    if k > 0 {
      WalkPrefix(feed, present, base, size, first, s1, f1, t1, s2, f2, t2, k - 1);
      var i := k - 1;
      WalkStepAgrees(feed, present, base, size, first, s1, f1, t1, s2, f2, t2, i);
      forall j | 0 <= j <= k ensures t1[j] == t2[j] {
        if j < k {}
      }
      forall j | 0 <= j < k ensures s1[j] == s2[j] && f1[j] == f2[j] {
        if j < i {}
      }
    }
  }

  /**
   * update_to_latest's walk is determined by the feed, the store it starts
   * from, the first day and today: it cannot stop before an empty fetch or
   * today, nor go on after one.
   */
  lemma WalkDetermined(feed: Start -> seq<DataRow>, present: bool, base: string, size: int, first: Date, today: Date,
                       s1: seq<Date>, f1: seq<seq<DataRow>>, t1: seq<Store>,
                       s2: seq<Date>, f2: seq<seq<DataRow>>, t2: seq<Store>)
    requires CaughtUp(first, today, s1, f1) && DayFetches(feed, present, base, size, s1, f1, t1)
    requires CaughtUp(first, today, s2, f2) && DayFetches(feed, present, base, size, s2, f2, t2)
    requires t1[0] == t2[0]
    ensures s1 == s2 && f1 == f2 && t1 == t2
  {
    WalkLength(feed, present, base, size, first, today, s1, f1, t1, s2, f2, t2);
    WalkLength(feed, present, base, size, first, today, s2, f2, t2, s1, f1, t1);
    WalkPrefix(feed, present, base, size, first, s1, f1, t1, s2, f2, t2, |s1|);
  }

  /** A walk that stops is not the prefix of a longer one. */
  lemma WalkLength(feed: Start -> seq<DataRow>, present: bool, base: string, size: int, first: Date, today: Date,
                   s1: seq<Date>, f1: seq<seq<DataRow>>, t1: seq<Store>,
                   s2: seq<Date>, f2: seq<seq<DataRow>>, t2: seq<Store>)
    requires CaughtUp(first, today, s1, f1) && DayFetches(feed, present, base, size, s1, f1, t1)
    requires CaughtUp(first, today, s2, f2) && DayFetches(feed, present, base, size, s2, f2, t2)
    requires t1[0] == t2[0]
    ensures |s1| >= |s2|
  {
    if |s1| < |s2| {
      WalkPrefix(feed, present, base, size, first, s1, f1, t1, s2, f2, t2, |s1|);
    }
  }

  /**
   * One round of fetch_and_save_realtime: keep the provider's rows newer than
   * everything in st and save them twice, giving st'.
   */
  ghost predicate RoundStep(rows: seq<DataRow>, present: bool, base: string, size: int,
                            st: Store, got: seq<DataRow>, st': Store) {
    size > 0 && got == Fresh(Loaded(present, st), rows)
    && ChunksValid(Chunks(got, size)) && st' == SavedStore(SavedStore(st, base, size, got), base, size, got)
  }

  /** Round k of fetch_and_save_realtime goes from stores[k] to stores[k + 1]. */
  ghost predicate RoundAt(rows: seq<DataRow>, present: bool, base: string, size: int,
                          fetched: seq<seq<DataRow>>, stores: seq<Store>, k: int) {
    0 <= k < |fetched| && k + 1 < |stores|
    && RoundStep(rows, present, base, size, stores[k], fetched[k], stores[k + 1])
  }

  /** The rounds of fetch_and_save_realtime, one per fetch. */
  ghost predicate RealtimeFetches(rows: seq<DataRow>, present: bool, base: string, size: int,
                                  fetched: seq<seq<DataRow>>, stores: seq<Store>) {
    |stores| == |fetched| + 1
    && forall k :: 0 <= k < |fetched| ==> RoundAt(rows, present, base, size, fetched, stores, k)
  }

  /** A round recorded at index k of one log is recorded at index k of another log with the same entries there. */
  lemma RoundAtMoved(rows: seq<DataRow>, present: bool, base: string, size: int,
                     fetched: seq<seq<DataRow>>, stores: seq<Store>, fetched': seq<seq<DataRow>>, stores': seq<Store>, k: int)
    requires RoundAt(rows, present, base, size, fetched, stores, k)
    requires k < |fetched'| && k + 1 < |stores'|
    requires fetched'[k] == fetched[k] && stores'[k] == stores[k] && stores'[k + 1] == stores[k + 1]
    ensures RoundAt(rows, present, base, size, fetched', stores', k)
  {
  }

  lemma RealtimeFetchesSnoc(rows: seq<DataRow>, present: bool, base: string, size: int,
                            fetched: seq<seq<DataRow>>, stores: seq<Store>, got: seq<DataRow>, st: Store)
    requires RealtimeFetches(rows, present, base, size, fetched, stores)
    requires RoundStep(rows, present, base, size, stores[|fetched|], got, st)
    ensures RealtimeFetches(rows, present, base, size, fetched + [got], stores + [st])
  {
    var f', t' := fetched + [got], stores + [st];
    forall k | 0 <= k < |fetched| ensures RoundAt(rows, present, base, size, f', t', k) {
      RoundAtMoved(rows, present, base, size, fetched, stores, f', t', k);
    }
    assert RoundAt(rows, present, base, size, f', t', |fetched|) by {
      assert t'[|fetched|] == stores[|fetched|] && f'[|fetched|] == got && t'[|fetched| + 1] == st;
    }
  }

  /** The rows fetch_data keeps: all of them on an empty store, else only those after the newest stored row. */
  function Fresh(all: seq<DataRow>, got: seq<DataRow>): seq<DataRow> {
    if got == [] || all == [] then got else After(got, LatestRow(all).time)
  }

  /** Fetched rows carry valid timestamps when the provider's rows do. */
  lemma FreshTimesValid(all: seq<DataRow>, got: seq<DataRow>)
    requires RowsValid(got)
    ensures RowsValid(Fresh(all, got))
  {
    var f := Fresh(all, got);
    forall i | 0 <= i < |f| ensures ValidInstant(f[i].time) {
      assert f[i] in multiset(got);
    }
  }

  /**
   * The rows fetch_data keeps are exactly the fetched rows later than every
   * loaded row, in fetch order; all of them when nothing is loaded.
   */
  lemma FreshMember(all: seq<DataRow>, got: seq<DataRow>, x: DataRow)
    ensures x in Fresh(all, got) <==> x in got && forall i :: 0 <= i < |all| ==> Rank(all[i].time) < Rank(x.time)
  {
    if got != [] && all != [] {
      var last := LatestRow(all);
      FilterMember(got, (r: DataRow) => Rank(r.time) > Rank(last.time), x);
    }
  }

  /** The cache cutoff now - timedelta(days=cache_days), as a timestamp rank. */
  function CacheCutoff(now: Instant, days: int): int {
    Rank(now) - days * SecondsPerDay
  }

  /** The cache update: concat, sort_index, and keep the rows at or after the cutoff. */
  function Trimmed(rows: seq<DataRow>, cutoff: int): (r: seq<DataRow>)
    ensures SortedBy(r, TimeKey)
    ensures forall i :: 0 <= i < |r| ==> TimeKey(r[i]) >= cutoff
  {
    var sorted := SortBy(rows, TimeKey);
    FilterSorted(sorted, (x: DataRow) => TimeKey(x) >= cutoff, TimeKey);
    NotBefore(sorted, cutoff)
  }

  /** A row stays in the cache exactly when it is one of the rows and not older than the cutoff. */
  lemma TrimmedMember(rows: seq<DataRow>, cutoff: int, x: DataRow)
    ensures x in Trimmed(rows, cutoff) <==> x in rows && TimeKey(x) >= cutoff
  {
    var sorted := SortBy(rows, TimeKey);
    FilterMember(sorted, (y: DataRow) => TimeKey(y) >= cutoff, x);
    assert x in sorted <==> x in multiset(sorted);
  }

  /** The saves one realtime round makes: none for an empty fetch, else the fetched rows twice. */
  function Twice(f: seq<DataRow>): seq<seq<DataRow>> {
    if f == [] then [] else [f, f]
  }

  /** One more round adds its saves at the end of the log. */
  lemma SavedTwiceSnoc(log: seq<seq<DataRow>>, fetched: seq<seq<DataRow>>, got: seq<DataRow>)
    ensures log + SavedTwice(fetched) + Twice(got) == log + SavedTwice(fetched + [got])
  {
    assert (fetched + [got])[..|fetched|] == fetched;
  }

  lemma AppendTwice<T>(s: seq<T>, x: T)
    ensures s + [x] + [x] == s + [x, x]
  {
  }

  /** The saves a run of fetch_and_save_realtime makes: each non-empty fetch is saved twice. */
  function SavedTwice(fetched: seq<seq<DataRow>>): seq<seq<DataRow>> {
    if fetched == [] then []
    else
      var f := fetched[|fetched| - 1];
      SavedTwice(fetched[..|fetched| - 1]) + Twice(f)
  }

  /** Every row carries a timestamp that names a real calendar day and second. */
  predicate RowsValid(rows: seq<DataRow>) {
    forall i :: 0 <= i < |rows| ==> ValidInstant(rows[i].time)
  }

  ghost predicate ValidFeed(feed: Start -> seq<DataRow>) {
    forall s :: RowsValid(feed(s))
  }

  /** A data provider: its start and end settings and the rows get_data returns for a start setting. */
  class DataProvider {
    var startDate: Start
    var endDate: Start
    const feed: Start -> seq<DataRow>

    constructor (start: Start, end: Start, feed: Start -> seq<DataRow>)
      ensures startDate == start && endDate == end && this.feed == feed
    {
      startDate := start;
      endDate := end;
      this.feed := feed;
    }

    method GetData() returns (rows: seq<DataRow>)
      ensures rows == feed(startDate)
    {
      rows := feed(startDate);
    }
  }

  /** ProviderDataPipeline together with the DataPipeline base it extends. */
  class ProviderDataPipeline {
    const provider: DataProvider?
    const basePath: string
    const cacheDays: int
    const chunkSize: int
    var baseExists: bool
    var store: Store
    var dirs: seq<string>
    var cache: seq<DataRow>
    var currentDate: Date
    ghost var saves: seq<seq<DataRow>>

    ghost predicate Valid()
      reads this
    {
      chunkSize > 0 && WellFormedStore(store) && TimesValid(store)
      && (provider != null ==> ValidFeed(provider.feed))
    }

    /**
     * The pipeline over an existing store. The base class loads the cache
     * (_load_cache, the chunk files of the last cache_days) exactly when the
     * provider is None, and starts with an empty cache otherwise; recent is
     * what that load reads.
     */
    constructor (provider: DataProvider?, basePath: string, cacheDays: int, chunkSize: int,
                 existing: Store, dirs: seq<string>, today: Date, recent: seq<DataRow>)
      requires chunkSize > 0 && WellFormedStore(existing) && TimesValid(existing)
      requires provider != null ==> ValidFeed(provider.feed)
      ensures Valid()
      ensures this.provider == provider && this.basePath == basePath && this.cacheDays == cacheDays
      ensures this.chunkSize == chunkSize && store == existing && this.dirs == dirs
      ensures cache == if provider == null then recent else []
      ensures baseExists && currentDate == today && saves == []
    {
      this.provider := provider;
      this.basePath := basePath;
      this.cacheDays := cacheDays;
      this.chunkSize := chunkSize;
      baseExists := true;
      store := existing;
      this.dirs := dirs;
      cache := if provider == null then recent else [];
      currentDate := today;
      saves := [];
    }

    function GetAllData(): seq<DataRow>
      reads this
    {
      Loaded(baseExists, store)
    }

    function GetDataRange(start: Option<Instant>, end: Option<Instant>): seq<DataRow>
      reads this
    {
      DataRange(GetAllData(), start, end)
    }

    function GetLatestDate(): Option<Date>
      reads this
    {
      LatestDate(GetAllData())
    }

    /** _save_data: cut the data into chunks of chunk_size rows and append chunk k to its month's file k. */
    method SaveData(data: seq<DataRow>)
      requires Valid()
      requires RowsValid(data)
      modifies this
      ensures Valid()
      ensures ChunksValid(Chunks(data, chunkSize))
      ensures store == WriteChunks(old(store), basePath, Chunks(data, chunkSize))
      ensures saves == old(saves) + [data]
      ensures cache == old(cache) && baseExists == old(baseExists) && dirs == old(dirs) && currentDate == old(currentDate)
    {
      store := SaveChunks(store, basePath, data, chunkSize);
      SavedValid(old(store), basePath, data, chunkSize);
      saves := saves + [data];
    }

    /**
     * fetch_data: reload the stored rows into the cache, fetch, keep only rows
     * after the newest stored one, save them, and cache the sorted rows no
     * older than cache_days before now.
     */
    method FetchData(now: Instant) returns (got: seq<DataRow>)
      requires Valid()
      modifies this
      ensures Valid()
      ensures provider == null ==> got == [] && store == old(store) && cache == old(cache) && saves == old(saves)
      ensures provider != null ==> got == Fresh(Loaded(old(baseExists), old(store)), provider.feed(provider.startDate))
      ensures RowsValid(got)
      ensures got == [] ==> store == old(store) && saves == old(saves)
      ensures provider != null && got == [] ==> cache == Loaded(old(baseExists), old(store))
      ensures got != [] ==> ChunksValid(Chunks(got, chunkSize)) && store == WriteChunks(old(store), basePath, Chunks(got, chunkSize))
      ensures got != [] ==> saves == old(saves) + [got]
      ensures got != [] ==> cache == Trimmed(Loaded(old(baseExists), old(store)) + got, CacheCutoff(now, cacheDays))
      ensures dirs == old(dirs) && baseExists == old(baseExists) && currentDate == old(currentDate)
    {
      if provider == null {
        return [];
      }
      ghost var all := Loaded(baseExists, store);
      ghost var feed := provider.feed(provider.startDate);
      cache := GetAllData();
      got := provider.GetData();
      if got != [] {
        if cache != [] {
          got := After(got, LatestRow(cache).time);
        }
        assert got == Fresh(all, feed);
        FreshTimesValid(all, feed);
        if got != [] {
          KeepFetched(got, now);
        }
      }
    }

    /** The tail of fetch_data: save the new rows and cache the sorted rows no older than cache_days before now. */
    method KeepFetched(got: seq<DataRow>, now: Instant)
      requires Valid() && RowsValid(got)
      modifies this
      ensures Valid()
      ensures ChunksValid(Chunks(got, chunkSize)) && store == WriteChunks(old(store), basePath, Chunks(got, chunkSize))
      ensures saves == old(saves) + [got]
      ensures cache == Trimmed(old(cache) + got, CacheCutoff(now, cacheDays))
      ensures dirs == old(dirs) && baseExists == old(baseExists) && currentDate == old(currentDate)
    {
      SaveData(got);
      cache := Trimmed(cache + got, CacheCutoff(now, cacheDays));
    }

    /**
     * update_to_latest: one full fetch when nothing is stored; otherwise step
     * the provider's start_date one day at a time up to today, stopping at the
     * first empty fetch. Returns the start dates that were set.
     */
    method UpdateToLatest(today: Date, now: Instant)
      returns (starts: seq<Date>, ghost fetched: seq<seq<DataRow>>, ghost stores: seq<Store>)
      requires Valid() && Calendar.Valid(today)
      modifies this, provider
      ensures Valid()
      ensures provider == null ==> starts == [] && store == old(store) && cache == old(cache)
      ensures LatestDate(Loaded(old(baseExists), old(store))).None? ==> starts == []
      ensures provider != null && LatestDate(Loaded(old(baseExists), old(store))).None? ==>
        |fetched| == 1 && provider.startDate == old(provider.startDate)
        && FetchStep(provider.feed(provider.startDate), old(baseExists), basePath, chunkSize, old(store), fetched[0], store)
      ensures provider != null && LatestDate(Loaded(old(baseExists), old(store))).Some? ==>
        CaughtUp(LatestDate(Loaded(old(baseExists), old(store))).value, today, starts, fetched)
        && DayFetches(provider.feed, old(baseExists), basePath, chunkSize, starts, fetched, stores)
        && stores[0] == old(store) && store == stores[|starts|]
      ensures provider != null && starts != [] ==> provider.startDate == Day(starts[|starts| - 1])
    {
      starts, fetched, stores := [], [], [store];
      if provider != null {
        var latest := GetLatestDate();
        if latest.None? {
          var got := FetchAll(now);
          fetched := [got];
        } else {
          LoadedTimesValid(baseExists, store);
          starts, fetched, stores := CatchUp(latest.value, today, now);
        }
      }
    }

    /** The full fetch update_to_latest makes when nothing is stored; its result is not used. */
    method FetchAll(now: Instant) returns (ghost got: seq<DataRow>)
      requires Valid() && provider != null
      modifies this
      ensures Valid() && baseExists == old(baseExists)
      ensures FetchStep(provider.feed(provider.startDate), old(baseExists), basePath, chunkSize, old(store), got, store)
    {
      got := FetchData(now);
    }

    /** The loop of update_to_latest from the latest stored date: one fetch per following day up to today. */
    method CatchUp(first: Date, today: Date, now: Instant)
      returns (starts: seq<Date>, ghost fetched: seq<seq<DataRow>>, ghost stores: seq<Store>)
      requires Valid() && provider != null && Calendar.Valid(first) && Calendar.Valid(today)
      modifies this, provider
      ensures Valid()
      ensures CaughtUp(first, today, starts, fetched)
      ensures DayFetches(provider.feed, old(baseExists), basePath, chunkSize, starts, fetched, stores)
      ensures stores[0] == old(store) && store == stores[|starts|] && baseExists == old(baseExists)
      ensures starts != [] ==> provider.startDate == Day(starts[|starts| - 1])
    {
      ghost var present, store0 := baseExists, store;
      var d, stopped;
      d, stopped, starts, fetched, stores := WalkDays(first, today, now, present, store0);
      CaughtUpAtExit(first, today, d, starts, fetched, stopped);
    }

    /**
     * The while loop of update_to_latest: it ends at today, or stopped after
     * an empty fetch; d is the last day it set.
     */
    method WalkDays(first: Date, today: Date, now: Instant, ghost present: bool, ghost store0: Store)
      returns (d: Date, stopped: bool, starts: seq<Date>, ghost fetched: seq<seq<DataRow>>, ghost stores: seq<Store>)
      requires Valid() && provider != null && Calendar.Valid(first) && Calendar.Valid(today)
      requires baseExists == present && store == store0
      modifies this, provider
      ensures Valid()
      ensures Ordinal(d) == Ordinal(first) + |starts|
      ensures starts != [] ==> Ordinal(d) <= Ordinal(today) && provider.startDate == Day(starts[|starts| - 1])
      ensures DaySteps(first, starts) && |fetched| == |starts|
      ensures stopped ==> starts != [] && fetched[|fetched| - 1] == [] && forall k :: 0 <= k < |fetched| - 1 ==> fetched[k] != []
      ensures !stopped ==> Ordinal(d) >= Ordinal(today) && forall k :: 0 <= k < |fetched| ==> fetched[k] != []
      ensures DayFetches(provider.feed, present, basePath, chunkSize, starts, fetched, stores)
      ensures stores[0] == store0 && store == stores[|starts|] && baseExists == present
    {
      starts, fetched, stores := [], [], [store];
      d := first;
      stopped := false;
      while Ordinal(d) < Ordinal(today)
        invariant Valid() && Calendar.Valid(d)
        invariant Ordinal(d) == Ordinal(first) + |starts|
        invariant starts != [] ==> Ordinal(d) <= Ordinal(today) && provider.startDate == Day(starts[|starts| - 1])
        invariant DaySteps(first, starts) && |fetched| == |starts|
        invariant forall k :: 0 <= k < |fetched| ==> fetched[k] != []
        invariant DayFetches(provider.feed, present, basePath, chunkSize, starts, fetched, stores)
        invariant stores[0] == store0 && store == stores[|starts|] && baseExists == present
        decreases Ordinal(today) - Ordinal(d)
      {
        var got;
        got, d, starts, fetched, stores := CatchUpPass(first, d, today, now, starts, fetched, stores, present, store0);
        if got == [] {
          stopped := true;
          return;
        }
      }
    }

    /**
     * One pass of the update_to_latest loop: the fetch at the day after prev,
     * recorded in the start days, the fetch log and the store sequence.
     */
    method CatchUpPass(first: Date, prev: Date, today: Date, now: Instant, starts: seq<Date>,
                       ghost fetched: seq<seq<DataRow>>, ghost stores: seq<Store>, ghost present: bool, ghost store0: Store)
      returns (got: seq<DataRow>, d: Date, starts': seq<Date>, ghost fetched': seq<seq<DataRow>>, ghost stores': seq<Store>)
      requires Valid() && provider != null && baseExists == present
      requires Calendar.Valid(prev) && Calendar.Valid(today) && Ordinal(prev) < Ordinal(today)
      requires DaySteps(first, starts) && Ordinal(prev) == Ordinal(first) + |starts|
      requires DayFetches(provider.feed, present, basePath, chunkSize, starts, fetched, stores)
      requires stores[0] == store0 && store == stores[|starts|]
      modifies this, provider
      ensures Valid() && Calendar.Valid(d) && Ordinal(d) == Ordinal(prev) + 1
      ensures starts' == starts + [d] && fetched' == fetched + [got] && provider.startDate == Day(d)
      ensures DaySteps(first, starts')
      ensures DayFetches(provider.feed, present, basePath, chunkSize, starts', fetched', stores')
      ensures stores'[0] == store0 && store == stores'[|starts'|] && baseExists == present
    {
      BeforeValidHasNext(prev, today);
      d := NextDay(prev);
      DayStepsSnoc(first, starts, d);
      got := FetchDay(d, now);
      DayFetchesSnoc(provider.feed, baseExists, basePath, chunkSize, starts, fetched, stores, d, got, store);
      starts', fetched', stores' := starts + [d], fetched + [got], stores + [store];
    }

    /** One step of update_to_latest: start the provider at day d and fetch. */
    method FetchDay(d: Date, now: Instant) returns (got: seq<DataRow>)
      requires Valid() && provider != null
      modifies this, provider
      ensures Valid() && provider.startDate == Day(d)
      ensures got == Fresh(Loaded(old(baseExists), old(store)), provider.feed(Day(d)))
      ensures FetchStep(provider.feed(Day(d)), old(baseExists), basePath, chunkSize, old(store), got, store)
      ensures baseExists == old(baseExists)
    {
      provider.startDate := Day(d);
      got := FetchData(now);
    }

    /**
     * fetch_start: load the stored rows; fetch everything when there are none,
     * else start after the newest. Without a provider the first line raises
     * AttributeError (raised) and nothing changes.
     */
    method FetchStart() returns (raised: bool)
      requires Valid()
      modifies this, provider
      ensures Valid()
      ensures raised <==> provider == null
      ensures raised ==> cache == old(cache)
      ensures !raised && Loaded(old(baseExists), old(store)) == [] ==>
        cache == provider.feed(old(provider.startDate)) && provider.startDate == old(provider.startDate)
      ensures !raised && Loaded(old(baseExists), old(store)) != [] ==>
        cache == Loaded(old(baseExists), old(store))
        && provider.startDate == Moment(LatestRow(Loaded(old(baseExists), old(store))).time)
      ensures store == old(store) && saves == old(saves)
    {
      if provider == null {
        return true;
      }
      raised := false;
      cache := GetAllData();
      if cache == [] {
        cache := provider.GetData();
      } else {
        provider.startDate := Moment(LatestRow(cache).time);
      }
    }

    /**
     * fetch_and_save_realtime: one round per clock reading until the stop
     * event is set (the readings run out); with single_fetch only the first
     * round. Each round fetches (which saves) and saves the fetched rows again.
     */
    method FetchAndSaveRealtime(clock: seq<(Date, Instant)>, singleFetch: bool)
      returns (fetched: seq<seq<DataRow>>, raised: bool, ghost stores: seq<Store>)
      requires Valid()
      modifies this
      ensures Valid()
      ensures raised <==> provider == null
      ensures |fetched| == if raised || clock == [] then 0 else if singleFetch then 1 else |clock|
      ensures saves == old(saves) + SavedTwice(fetched)
      ensures fetched != [] ==> currentDate == clock[|fetched| - 1].0
      ensures fetched == [] ==> currentDate == old(currentDate) && store == old(store)
      ensures !raised ==>
        RealtimeFetches(provider.feed(provider.startDate), old(baseExists), basePath, chunkSize, fetched, stores)
        && stores[0] == old(store) && store == stores[|fetched|]
    {
      fetched, stores := [], [store];
      if provider == null {
        return fetched, true, stores;
      }
      raised := false;
      var k := 0;
      while k < |clock|
        invariant Valid() && 0 <= k <= |clock| && |fetched| == k
        invariant singleFetch ==> k == 0
        invariant saves == old(saves) + SavedTwice(fetched)
        invariant k > 0 ==> currentDate == clock[k - 1].0
        invariant k == 0 ==> currentDate == old(currentDate) && store == old(store)
        invariant RealtimeFetches(provider.feed(provider.startDate), old(baseExists), basePath, chunkSize, fetched, stores)
        invariant stores[0] == old(store) && store == stores[|fetched|] && baseExists == old(baseExists)
      {
        fetched, stores := RealtimePass(clock[k].0, clock[k].1, old(saves), fetched, stores);
        k := k + 1;
        if singleFetch {
          break;
        }
      }
    }

    /** One pass of the fetch_and_save_realtime loop: a round, recorded in the fetch log and the store sequence. */
    method RealtimePass(today: Date, now: Instant, ghost log: seq<seq<DataRow>>,
                        fetched: seq<seq<DataRow>>, ghost stores: seq<Store>)
      returns (fetched': seq<seq<DataRow>>, ghost stores': seq<Store>)
      requires Valid() && provider != null
      requires saves == log + SavedTwice(fetched)
      requires RealtimeFetches(provider.feed(provider.startDate), baseExists, basePath, chunkSize, fetched, stores)
      requires store == stores[|fetched|]
      modifies this
      ensures Valid() && currentDate == today && baseExists == old(baseExists)
      ensures |fetched'| == |fetched| + 1 && saves == log + SavedTwice(fetched')
      ensures RealtimeFetches(provider.feed(provider.startDate), baseExists, basePath, chunkSize, fetched', stores')
      ensures store == stores'[|fetched'|] && stores'[0] == stores[0]
    {
      var got := Round(today, now);
      SavedTwiceSnoc(log, fetched, got);
      RealtimeFetchesSnoc(provider.feed(provider.startDate), baseExists, basePath, chunkSize, fetched, stores, got, store);
      fetched', stores' := fetched + [got], stores + [store];
    }

    /**
     * One round of fetch_and_save_realtime: note the day, fetch (which saves
     * the new rows), and save the fetched rows once more.
     */
    method Round(today: Date, now: Instant) returns (got: seq<DataRow>)
      requires Valid() && provider != null
      modifies this
      ensures Valid() && currentDate == today
      ensures got == Fresh(Loaded(old(baseExists), old(store)), provider.feed(provider.startDate))
      ensures saves == old(saves) + Twice(got)
      ensures got == [] ==> store == old(store)
      ensures got != [] ==> ChunksValid(Chunks(got, chunkSize))
      ensures RoundStep(provider.feed(provider.startDate), old(baseExists), basePath, chunkSize, old(store), got, store)
      ensures baseExists == old(baseExists)
      ensures got != [] ==>
        store == WriteChunks(WriteChunks(old(store), basePath, Chunks(got, chunkSize)), basePath, Chunks(got, chunkSize))
    {
      // The date-change test only decides whether to log; either way the field ends up today.
      ghost var before := saves;
      currentDate := today;
      got := FetchData(now);
      if got != [] {
        SaveData(got);
        AppendTwice(before, got);
      }
    }

    /** clean_old_data: remove every directory named like a date before today - days, with its files. */
    method CleanOldData(today: Date, days: int)
      requires Valid()
      modifies this
      ensures Valid()
      ensures dirs == Kept(old(dirs), Ordinal(today) - days)
      ensures store == CleanedStore(old(store), old(dirs), Ordinal(today) - days)
      ensures cache == old(cache) && saves == old(saves)
    {
      var cutoff := Ordinal(today) - days;
      var walked := dirs;
      store, dirs := RemoveExpired(store, walked, cutoff);
      CleanedStoreWellFormed(old(store), walked, cutoff);
    }
  }

  /**
   * The loop of _save_data: cut off chunk_size rows at a time and append
   * chunk k to the file of its first row's month with chunk number k.
   */
  method SaveChunks(st: Store, base: string, data: seq<DataRow>, size: int) returns (w: Store)
    requires size > 0
    requires RowsValid(data)
    ensures ChunksValid(Chunks(data, size))
    ensures w == WriteChunks(st, base, Chunks(data, size))
  {
    ChunksAllValid(data, size);
    w := st;
    var rest := data;
    var n: nat := 0;
    ghost var done: seq<seq<DataRow>> := [];
    while rest != []
      invariant Chunks(data, size) == done + Chunks(rest, size)
      invariant n == |done| && ChunksValid(done) && ChunksValid(Chunks(rest, size))
      invariant w == WriteChunks(st, base, done)
      decreases |rest|
    {
      var chunk := rest[..Min(size, |rest|)];
      SaveStep(st, base, data, size, done, rest);
      rest := rest[Min(size, |rest|)..];
      w := WriteOne(w, FilePath(base, chunk[0].time.date, n), chunk);
      done := done + [chunk];
      n := n + 1;
    }
    assert done + Chunks(rest, size) == done;
  }

  /** What one round of the saving loop keeps: the chunks cut so far, then those of the rest, make up all chunks. */
  lemma SaveStep(st: Store, base: string, data: seq<DataRow>, size: int, done: seq<seq<DataRow>>, rest: seq<DataRow>)
    requires size > 0 && rest != []
    requires Chunks(data, size) == done + Chunks(rest, size)
    requires ChunksValid(done) && ChunksValid(Chunks(rest, size))
    ensures Calendar.Valid(rest[..Min(size, |rest|)][0].time.date)
    ensures Chunks(data, size) == (done + [rest[..Min(size, |rest|)]]) + Chunks(rest[Min(size, |rest|)..], size)
    ensures ChunksValid(done + [rest[..Min(size, |rest|)]])
    ensures ChunksValid(Chunks(rest[Min(size, |rest|)..], size))
    ensures WriteChunks(st, base, done + [rest[..Min(size, |rest|)]])
      == WriteOne(WriteChunks(st, base, done), FilePath(base, rest[0].time.date, |done|), rest[..Min(size, |rest|)])
  {
    var chunk := rest[..Min(size, |rest|)];
    ChunksHead(rest, size);
    assert chunk[0] == rest[0];
    SnocAssoc(done, chunk, Chunks(rest[Min(size, |rest|)..], size));
    WriteChunksSnoc(st, base, done, chunk);
  }

  lemma SnocAssoc<T>(s: seq<T>, x: T, t: seq<T>)
    ensures s + ([x] + t) == (s + [x]) + t
  {
  }

  /** Writing one more valid chunk is one more WriteOne, to the file numbered by the chunks before it. */
  lemma WriteChunksSnoc(st: Store, base: string, done: seq<seq<DataRow>>, chunk: seq<DataRow>)
    requires ChunksValid(done) && |chunk| > 0 && ValidInstant(chunk[0].time)
    ensures ChunksValid(done + [chunk])
    ensures WriteChunks(st, base, done + [chunk])
      == WriteOne(WriteChunks(st, base, done), FilePath(base, chunk[0].time.date, |done|), chunk)
  {
    var grown := done + [chunk];
    assert grown[..|done|] == done;
  }


  /**
   * The walk of clean_old_data over the directories: each one named like a
   * date before the cutoff loses its files and is removed, the others stay.
   */
  method RemoveExpired(st: Store, walked: seq<string>, cutoff: int) returns (cleaned: Store, kept: seq<string>)
    ensures cleaned == CleanedStore(st, walked, cutoff)
    ensures kept == Kept(walked, cutoff)
  {
    cleaned := st;
    kept := [];
    var k := 0;
    while k < |walked|
      invariant 0 <= k <= |walked|
      invariant kept == Kept(walked[..k], cutoff)
      invariant cleaned == CleanedStore(st, walked[..k], cutoff)
    {
      var dir := walked[k];
      assert walked[..k + 1][..k] == walked[..k];
      if Expired(dir, cutoff) {
        cleaned := StoreWithout(cleaned, dir);
      } else {
        kept := kept + [dir];
      }
      k := k + 1;
    }
    assert walked[..k] == walked;
  }

  /** Every row read from the store carries a valid timestamp. */
  lemma {:induction false} RowsOfTimes(files: map<string, seq<Line>>, order: seq<string>, x: DataRow)
    requires forall p, i :: p in files && 0 <= i < |files[p]| && files[p][i].Record? ==> ValidInstant(files[p][i].row.time)
    requires x in RowsOf(files, order)
    ensures ValidInstant(x.time)
  {
    var init := order[..|order| - 1];
    var p := order[|order| - 1];
    if x in RowsOf(files, init) {
      RowsOfTimes(files, init, x);
    } else {
      assert x in FileRows(files, p);
      RecordsTimes(files[p], x);
    }
  }

  lemma {:induction false} RecordsTimes(lines: seq<Line>, x: DataRow)
    requires forall i :: 0 <= i < |lines| && lines[i].Record? ==> ValidInstant(lines[i].row.time)
    requires x in Records(lines)
    ensures ValidInstant(x.time)
  {
    var init := lines[..|lines| - 1];
    if x in Records(init) {
      RecordsTimes(init, x);
    }
  }
}
