// Incremental synchronisation of per-symbol price CSV files into the STOCK_PRICE
// table (scripts/update_stock_price.py): rows after the newest stored DATE are
// inserted, rows at or before it are compared with the stored OHLC values and
// rewritten when they differ by more than the tolerance.

module StockPriceSync {
  import opened Wrappers
  import opened Calendar
  import opened Paths
  import opened Frames

  /** Default tolerance of almost_equal. */
  const Tolerance: real := 0.0001

  function Abs(x: real): (r: real)
    ensures r >= 0.0 && (r == x || r == -x)
  {
    if x < 0.0 then -x else x
  }

  /** almost_equal(a, b, tol): the two prices differ by at most tol. */
  predicate AlmostEqual(a: real, b: real, tol: real) {
    Abs(a - b) <= tol
  }

  /** The four prices that are compared and updated. */
  datatype Bar = Bar(open: real, high: real, low: real, close: real)

  /**
   * A CSV line after its header has been upper-cased; VOLUME may be empty
   * (NaN), and others holds the cells of any further columns, which
   * drop_duplicates compares too.
   */
  datatype CsvPriceRow = CsvPriceRow(dateText: string, bar: Bar, volume: Option<real>, others: seq<string>)

  /** A CSV line whose DATE parsed. */
  datatype PriceRow = PriceRow(date: Instant, bar: Bar, volume: Option<real>)

  /** A STOCK_PRICE record. */
  datatype StockRow = StockRow(code: string, date: Instant, bar: Bar, volume: real)

  /** An UPDATE ... SET OPEN, HIGH, LOW, CLOSE ... WHERE COMPANY_CODE = .. AND DATE = date. */
  datatype PriceUpdate = PriceUpdate(date: Instant, bar: Bar)

  /**
   * The files the script can see: the directories that exist, the result of
   * globbing *.csv in each, and the contents of the readable files.
   */
  datatype PriceDisk = PriceDisk(dirs: set<string>, globs: map<string, seq<string>>, files: map<string, seq<CsvPriceRow>>)

  /** The four prices agree within the tolerance. */
  predicate BarsClose(a: Bar, b: Bar) {
    AlmostEqual(a.open, b.open, Tolerance) && AlmostEqual(a.high, b.high, Tolerance)
    && AlmostEqual(a.low, b.low, Tolerance) && AlmostEqual(a.close, b.close, Tolerance)
  }

  // ---------------------------------------------------------------- cleaning

  /** pd.to_datetime(errors="coerce") on one line; None is NaT. */
  function ParseRow(raw: CsvPriceRow, parse: string -> Option<Instant>): Option<PriceRow> {
    var t := parse(raw.dateText);
    if t.Some? then Some(PriceRow(t.value, raw.bar, raw.volume)) else None
  }

  /** Some line of rows parses to pr. */
  predicate Produces(rows: seq<CsvPriceRow>, pr: PriceRow, parse: string -> Option<Instant>) {
    exists i :: 0 <= i < |rows| && ParseRow(rows[i], parse) == Some(pr)
  }

  lemma ProducesSnoc(rows: seq<CsvPriceRow>, pr: PriceRow, parse: string -> Option<Instant>)
    requires rows != []
    ensures Produces(rows, pr, parse) <==> Produces(rows[..|rows| - 1], pr, parse) || ParseRow(rows[|rows| - 1], parse) == Some(pr)
  {
    var init := rows[..|rows| - 1];
    if Produces(init, pr, parse) {
      var i :| 0 <= i < |init| && ParseRow(init[i], parse) == Some(pr);
      assert rows[i] == init[i];
    }
    if Produces(rows, pr, parse) && ParseRow(rows[|rows| - 1], parse) != Some(pr) {
      var i :| 0 <= i < |rows| && ParseRow(rows[i], parse) == Some(pr);
      assert init[i] == rows[i];
    }
  }

  /** The DATE conversion followed by dropna(subset=["DATE"]). */
  function ParsePrices(rows: seq<CsvPriceRow>, parse: string -> Option<Instant>): (out: seq<PriceRow>)
    ensures |out| <= |rows|
    ensures forall pr :: pr in out <==> Produces(rows, pr, parse)
  {
    if rows == [] then []
    else
      var init := ParsePrices(rows[..|rows| - 1], parse);
      var p := ParseRow(rows[|rows| - 1], parse);
      assert forall pr :: Produces(rows, pr, parse) <==> Produces(rows[..|rows| - 1], pr, parse) || p == Some(pr) by {
        forall pr ensures Produces(rows, pr, parse) <==> Produces(rows[..|rows| - 1], pr, parse) || p == Some(pr) {
          ProducesSnoc(rows, pr, parse);
        }
      }
      if p.Some? then init + [p.value] else init
  }

  /** Each file's frame de-duplicated, the frames concatenated and de-duplicated again. */
  function Combined(parts: seq<seq<CsvPriceRow>>): seq<CsvPriceRow> {
    DedupFirst(Concat(seq(|parts|, k requires 0 <= k < |parts| => DedupFirst(parts[k]))))
  }

  lemma CombinedMember(parts: seq<seq<CsvPriceRow>>, x: CsvPriceRow)
    ensures x in Combined(parts) <==> exists k :: 0 <= k < |parts| && x in parts[k]
  {
    var deduped := seq(|parts|, k requires 0 <= k < |parts| => DedupFirst(parts[k]));
    ConcatMember(deduped, x);
    if x in Combined(parts) {
      var k :| 0 <= k < |deduped| && x in deduped[k];
      assert x in parts[k];
    }
    if exists k :: 0 <= k < |parts| && x in parts[k] {
      var k :| 0 <= k < |parts| && x in parts[k];
      assert x in deduped[k];
    }
  }

  function DateKey(r: PriceRow): int {
    Rank(r.date)
  }

  /**
   * The cleaned frame of one symbol: duplicates dropped, unparseable DATEs
   * dropped, sorted by DATE.
   */
  function CleanPrices(parts: seq<seq<CsvPriceRow>>, parse: string -> Option<Instant>): (out: seq<PriceRow>)
    ensures SortedBy(out, DateKey)
    ensures multiset(out) == multiset(ParsePrices(Combined(parts), parse))
  {
    SortBy(ParsePrices(Combined(parts), parse), DateKey)
  }

  /** Some line of one of the files parses to pr. */
  predicate FromFiles(parts: seq<seq<CsvPriceRow>>, pr: PriceRow, parse: string -> Option<Instant>) {
    exists k, i :: 0 <= k < |parts| && 0 <= i < |parts[k]| && ParseRow(parts[k][i], parse) == Some(pr)
  }

  lemma CombinedProduces(parts: seq<seq<CsvPriceRow>>, parse: string -> Option<Instant>, pr: PriceRow)
    ensures Produces(Combined(parts), pr, parse) <==> FromFiles(parts, pr, parse)
  {
    var c := Combined(parts);
    if Produces(c, pr, parse) {
      var i :| 0 <= i < |c| && ParseRow(c[i], parse) == Some(pr);
      CombinedMember(parts, c[i]);
      var k :| 0 <= k < |parts| && c[i] in parts[k];
      var j :| 0 <= j < |parts[k]| && parts[k][j] == c[i];
      assert ParseRow(parts[k][j], parse) == Some(pr);
    }
    if FromFiles(parts, pr, parse) {
      var k, i :| 0 <= k < |parts| && 0 <= i < |parts[k]| && ParseRow(parts[k][i], parse) == Some(pr);
      CombinedMember(parts, parts[k][i]);
      var j :| 0 <= j < |c| && c[j] == parts[k][i];
      assert ParseRow(c[j], parse) == Some(pr);
    }
  }

  /** A cleaned row is exactly a parse of a line of one of the files. */
  lemma CleanPricesMember(parts: seq<seq<CsvPriceRow>>, parse: string -> Option<Instant>, pr: PriceRow)
    ensures pr in CleanPrices(parts, parse) <==> FromFiles(parts, pr, parse)
  {
    var out := CleanPrices(parts, parse);
    var parsed := ParsePrices(Combined(parts), parse);
    assert pr in out <==> pr in multiset(out);
    assert pr in parsed <==> pr in multiset(parsed);
    CombinedProduces(parts, parse, pr);
  }

  // ------------------------------------------------------ insert / update split

  /** The rows to INSERT: after the newest stored DATE, or all of them when nothing is stored. */
  function NewRows(rows: seq<PriceRow>, last: Option<Instant>): seq<PriceRow> {
    if last.None? then rows else Filter(rows, (r: PriceRow) => Rank(r.date) > Rank(last.value))
  }

  /** The update candidates: at or before the newest stored DATE, none when nothing is stored. */
  function OldRows(rows: seq<PriceRow>, last: Option<Instant>): seq<PriceRow> {
    if last.None? then [] else Filter(rows, (r: PriceRow) => Rank(r.date) <= Rank(last.value))
  }

  /** The two sets split the cleaned rows between them. */
  lemma NewOldPartition(rows: seq<PriceRow>, last: Option<Instant>)
    ensures multiset(NewRows(rows, last)) + multiset(OldRows(rows, last)) == multiset(rows)
    ensures last.Some? ==> forall i :: 0 <= i < |NewRows(rows, last)| ==> Rank(NewRows(rows, last)[i].date) > Rank(last.value)
    ensures last.Some? ==> forall i :: 0 <= i < |OldRows(rows, last)| ==> Rank(OldRows(rows, last)[i].date) <= Rank(last.value)
    ensures last.None? ==> NewRows(rows, last) == rows && OldRows(rows, last) == []
  {
    if last.Some? {
      var p := (r: PriceRow) => Rank(r.date) > Rank(last.value);
      var q := (r: PriceRow) => Rank(r.date) <= Rank(last.value);
      FilterPartition(rows, p, q);
    }
  }

  /** The stored DATE values of a symbol's rows. */
  predicate StoredAt(rows: seq<StockRow>, code: string, t: Instant) {
    exists i :: 0 <= i < |rows| && rows[i].code == code && rows[i].date == t
  }

  /** The newest stored DATE of a symbol, None when the symbol has no rows. */
  function LatestFor(rows: seq<StockRow>, code: string): (r: Option<Instant>)
    ensures r.None? <==> forall i :: 0 <= i < |rows| ==> rows[i].code != code
    ensures r.Some? ==> StoredAt(rows, code, r.value)
    ensures r.Some? ==> forall i :: 0 <= i < |rows| && rows[i].code == code ==> Rank(rows[i].date) <= Rank(r.value)
  {
    if rows == [] then None
    else
      var init := rows[..|rows| - 1];
      var r := LatestFor(init, code);
      var x := rows[|rows| - 1];
      assert forall i :: 0 <= i < |init| ==> rows[i] == init[i];
      if x.code != code then
        (if r.Some? then
           var i :| 0 <= i < |init| && init[i].code == code && init[i].date == r.value;
           assert rows[i] == init[i];
           r
         else r)
      else if r.None? || Rank(x.date) > Rank(r.value) then Some(x.date)
      else
        var i :| 0 <= i < |init| && init[i].code == code && init[i].date == r.value;
        assert rows[i] == init[i];
        r
  }

  /** The smallest and largest DATE rank of the candidates. */
  function MinRank(s: seq<PriceRow>): (m: int)
    requires s != []
    ensures forall i :: 0 <= i < |s| ==> m <= Rank(s[i].date)
  {
    if |s| == 1 then Rank(s[0].date)
    else
      var m := MinRank(s[1..]);
      assert forall i :: 1 <= i < |s| ==> s[i] == s[1..][i - 1];
      if Rank(s[0].date) < m then Rank(s[0].date) else m
  }

  function MaxRank(s: seq<PriceRow>): (m: int)
    requires s != []
    ensures forall i :: 0 <= i < |s| ==> Rank(s[i].date) <= m
  {
    if |s| == 1 then Rank(s[0].date)
    else
      var m := MaxRank(s[1..]);
      assert forall i :: 1 <= i < |s| ==> s[i] == s[1..][i - 1];
      if Rank(s[0].date) > m then Rank(s[0].date) else m
  }

  /** select("COMPANY_CODE=code AND DATE >= lo AND DATE <= hi"): the symbol's rows in the range, in table order. */
  function RangeRows(rows: seq<StockRow>, code: string, lo: int, hi: int): (r: seq<StockRow>)
    ensures forall j :: 0 <= j < |r| ==> r[j].code == code && lo <= Rank(r[j].date) <= hi
  {
    if rows == [] then []
    else
      var x := rows[|rows| - 1];
      RangeRows(rows[..|rows| - 1], code, lo, hi) + (if x.code == code && lo <= Rank(x.date) <= hi then [x] else [])
  }

  /** The range selection loses no stored row of the symbol whose DATE lies in the range. */
  lemma {:induction false} RangeRowsKeeps(rows: seq<StockRow>, code: string, lo: int, hi: int, i: int)
    requires 0 <= i < |rows| && rows[i].code == code && lo <= Rank(rows[i].date) <= hi
    ensures rows[i] in RangeRows(rows, code, lo, hi)
  {
    if i < |rows| - 1 {
      var init := rows[..|rows| - 1];
      RangeRowsKeeps(init, code, lo, hi, i);
      assert init[i] == rows[i];
    }
  }

  // --------------------------------------------------------- change detection

  /** The stored rows whose DATE equals t, in order. */
  function SameDate(db: seq<StockRow>, t: Instant): (r: seq<StockRow>)
    ensures forall s :: s in r <==> s in db && s.date == t
  {
    if db == [] then []
    else
      var x := db[|db| - 1];
      assert db == db[..|db| - 1] + [x];
      SameDate(db[..|db| - 1], t) + (if x.date == t then [x] else [])
  }

  /** pd.merge(df_old, df_db, on DATE, how="inner"): each candidate with each stored row of its DATE, in candidate order. */
  function Merged(cand: seq<PriceRow>, db: seq<StockRow>): (r: seq<(PriceRow, StockRow)>)
    ensures cand == [] ==> r == []
  {
    if cand == [] then []
    else
      var o := cand[|cand| - 1];
      var m := SameDate(db, o.date);
      Merged(cand[..|cand| - 1], db) + seq(|m|, j requires 0 <= j < |m| => (o, m[j]))
  }

  /** Some candidate and some stored row share a DATE and form the pair p. */
  predicate PairedIn(cand: seq<PriceRow>, db: seq<StockRow>, p: (PriceRow, StockRow)) {
    exists i, j :: 0 <= i < |cand| && 0 <= j < |db| && cand[i].date == db[j].date && p == (cand[i], db[j])
  }

  lemma MergedMember(cand: seq<PriceRow>, db: seq<StockRow>, p: (PriceRow, StockRow))
    ensures p in Merged(cand, db) <==> PairedIn(cand, db, p)
  {
    MergedSound(cand, db, p);
    MergedComplete(cand, db, p);
  }

  /** Every merged pair is a candidate with a stored row of its DATE. */
  lemma {:induction false} MergedSound(cand: seq<PriceRow>, db: seq<StockRow>, p: (PriceRow, StockRow))
    ensures p in Merged(cand, db) ==> PairedIn(cand, db, p)
  {
    if cand != [] && p in Merged(cand, db) {
      var init := cand[..|cand| - 1];
      var o := cand[|cand| - 1];
      var m := SameDate(db, o.date);
      var tail := seq(|m|, j requires 0 <= j < |m| => (o, m[j]));
      assert Merged(cand, db) == Merged(init, db) + tail;
      if p in tail {
        var j :| 0 <= j < |tail| && tail[j] == p;
        assert m[j] in db;
        var k :| 0 <= k < |db| && db[k] == m[j];
        assert cand[|cand| - 1].date == db[k].date && p == (cand[|cand| - 1], db[k]);
      } else {
        MergedSound(init, db, p);
        var i, j :| 0 <= i < |init| && 0 <= j < |db| && init[i].date == db[j].date && p == (init[i], db[j]);
        assert cand[i] == init[i];
      }
    }
  }

  /** Every candidate paired with a stored row of its DATE is merged. */
  lemma {:induction false} MergedComplete(cand: seq<PriceRow>, db: seq<StockRow>, p: (PriceRow, StockRow))
    ensures PairedIn(cand, db, p) ==> p in Merged(cand, db)
  {
    if cand != [] && PairedIn(cand, db, p) {
      var init := cand[..|cand| - 1];
      var o := cand[|cand| - 1];
      var m := SameDate(db, o.date);
      var tail := seq(|m|, j requires 0 <= j < |m| => (o, m[j]));
      assert Merged(cand, db) == Merged(init, db) + tail;
      var i, j :| 0 <= i < |cand| && 0 <= j < |db| && cand[i].date == db[j].date && p == (cand[i], db[j]);
      if i < |cand| - 1 {
        assert init[i] == cand[i];
        assert PairedIn(init, db, p);
        MergedComplete(init, db, p);
      } else {
        assert db[j] in m;
        var k :| 0 <= k < |m| && m[k] == db[j];
        assert tail[k] == p;
      }
    }
  }

  /** With no stored rows in the range the merge is empty. */
  lemma {:induction false} MergedNoStored(cand: seq<PriceRow>)
    ensures Merged(cand, []) == []
  {
    if cand != [] {
      MergedNoStored(cand[..|cand| - 1]);
    }
  }

  /** The merged pair is changed: some price differs by more than the tolerance. */
  predicate Changed(p: (PriceRow, StockRow)) {
    !BarsClose(p.0.bar, p.1.bar)
  }

  /** The payload of the UPDATE issued for a changed pair: the CSV's prices at its DATE. */
  function UpdateOf(p: (PriceRow, StockRow)): PriceUpdate {
    PriceUpdate(p.0.date, p.0.bar)
  }

  /** The UPDATEs issued while walking the merged pairs in order. */
  function Changes(pairs: seq<(PriceRow, StockRow)>): seq<PriceUpdate> {
    if pairs == [] then []
    else
      var p := pairs[|pairs| - 1];
      Changes(pairs[..|pairs| - 1]) + (if Changed(p) then [UpdateOf(p)] else [])
  }

  lemma {:induction false} ChangesMember(pairs: seq<(PriceRow, StockRow)>, u: PriceUpdate)
    ensures u in Changes(pairs) <==> exists k :: 0 <= k < |pairs| && Changed(pairs[k]) && u == UpdateOf(pairs[k])
  {
    if pairs != [] {
      var init := pairs[..|pairs| - 1];
      ChangesMember(init, u);
      if exists k :: 0 <= k < |pairs| && Changed(pairs[k]) && u == UpdateOf(pairs[k]) {
        var k :| 0 <= k < |pairs| && Changed(pairs[k]) && u == UpdateOf(pairs[k]);
        if k < |pairs| - 1 {
          assert init[k] == pairs[k];
        }
      }
      if u in Changes(init) {
        var k :| 0 <= k < |init| && Changed(init[k]) && u == UpdateOf(init[k]);
        assert pairs[k] == init[k];
      }
    }
  }

  /**
   * A candidate's prices are written back exactly when it shares its DATE with a
   * stored row and one of OPEN, HIGH, LOW, CLOSE differs by more than the tolerance.
   */
  lemma UpdateIff(cand: seq<PriceRow>, db: seq<StockRow>, u: PriceUpdate)
    ensures u in Changes(Merged(cand, db)) <==>
      exists i, j :: 0 <= i < |cand| && 0 <= j < |db| && cand[i].date == db[j].date
        && !BarsClose(cand[i].bar, db[j].bar) && u == PriceUpdate(cand[i].date, cand[i].bar)
  {
    var pairs := Merged(cand, db);
    ChangesMember(pairs, u);
    if u in Changes(pairs) {
      var k :| 0 <= k < |pairs| && Changed(pairs[k]) && u == UpdateOf(pairs[k]);
      MergedMember(cand, db, pairs[k]);
      var i, j :| 0 <= i < |cand| && 0 <= j < |db| && cand[i].date == db[j].date && pairs[k] == (cand[i], db[j]);
      assert !BarsClose(cand[i].bar, db[j].bar);
    }
    if exists i, j :: 0 <= i < |cand| && 0 <= j < |db| && cand[i].date == db[j].date
        && !BarsClose(cand[i].bar, db[j].bar) && u == PriceUpdate(cand[i].date, cand[i].bar) {
      var i, j :| 0 <= i < |cand| && 0 <= j < |db| && cand[i].date == db[j].date
        && !BarsClose(cand[i].bar, db[j].bar) && u == PriceUpdate(cand[i].date, cand[i].bar);
      MergedMember(cand, db, (cand[i], db[j]));
      var k :| 0 <= k < |pairs| && pairs[k] == (cand[i], db[j]);
      assert Changed(pairs[k]) && u == UpdateOf(pairs[k]);
    }
  }

  /**
   * Re-reading files whose prices equal the stored ones issues no UPDATE:
   * almost_equal holds of equal prices.
   */
  lemma UnchangedBarsNoUpdates(cand: seq<PriceRow>, db: seq<StockRow>)
    requires forall i, j :: 0 <= i < |cand| && 0 <= j < |db| && cand[i].date == db[j].date ==> cand[i].bar == db[j].bar
    ensures Changes(Merged(cand, db)) == []
  {
    var us := Changes(Merged(cand, db));
    if us != [] {
      UpdateIff(cand, db, us[0]);
      var i, j :| 0 <= i < |cand| && 0 <= j < |db| && cand[i].date == db[j].date
        && !BarsClose(cand[i].bar, db[j].bar) && us[0] == PriceUpdate(cand[i].date, cand[i].bar);
      assert BarsClose(cand[i].bar, db[j].bar);
    }
  }

  // ------------------------------------------------------------- table state

  /** VOLUME as stored: NaN becomes 0, negatives are clipped to 0, the rest truncated to an integer. */
  function StoredVolume(v: Option<real>): (r: real)
    ensures r >= 0.0 && r == r.Floor as real
    ensures v.None? || v.value <= 0.0 ==> r == 0.0
    ensures v.Some? && v.value >= 0.0 ==> v.value - 1.0 < r <= v.value
  {
    if v.None? || v.value < 0.0 then 0.0 else v.value.Floor as real
  }

  /** The records inserted for a symbol's new rows, in frame order. */
  function Stored(code: string, rows: seq<PriceRow>): (r: seq<StockRow>)
    ensures |r| == |rows|
    ensures forall i :: 0 <= i < |r| ==> r[i] == StockRow(code, rows[i].date, rows[i].bar, StoredVolume(rows[i].volume))
  {
    seq(|rows|, i requires 0 <= i < |rows| => StockRow(code, rows[i].date, rows[i].bar, StoredVolume(rows[i].volume)))
  }

  /** One UPDATE: the symbol's rows at u's DATE get u's prices; nothing else changes. */
  function ApplyUpdate(rows: seq<StockRow>, code: string, u: PriceUpdate): (r: seq<StockRow>)
    ensures |r| == |rows|
    ensures forall i :: 0 <= i < |rows| ==>
      r[i] == if rows[i].code == code && rows[i].date == u.date then rows[i].(bar := u.bar) else rows[i]
  {
    seq(|rows|, i requires 0 <= i < |rows| =>
      if rows[i].code == code && rows[i].date == u.date then rows[i].(bar := u.bar) else rows[i])
  }

  function ApplyUpdates(rows: seq<StockRow>, code: string, us: seq<PriceUpdate>): seq<StockRow>
    decreases |us|
  {
    if us == [] then rows else ApplyUpdates(ApplyUpdate(rows, code, us[0]), code, us[1..])
  }

  /** Existing records keep their key and VOLUME, and the table never shrinks. */
  predicate Keeps(before: seq<StockRow>, after: seq<StockRow>) {
    |before| <= |after|
    && forall i :: 0 <= i < |before| ==>
      after[i].code == before[i].code && after[i].date == before[i].date && after[i].volume == before[i].volume
  }

  /**
   * A run of UPDATEs changes only prices: keys and VOLUME stay, other symbols'
   * rows stay, and so does any row whose DATE no update names.
   */
  lemma {:induction false} ApplyUpdatesFrame(rows: seq<StockRow>, code: string, us: seq<PriceUpdate>)
    ensures |ApplyUpdates(rows, code, us)| == |rows|
    ensures Keeps(rows, ApplyUpdates(rows, code, us))
    ensures forall i :: 0 <= i < |rows| && rows[i].code != code ==> ApplyUpdates(rows, code, us)[i] == rows[i]
    ensures forall i :: 0 <= i < |rows| && (forall k :: 0 <= k < |us| ==> us[k].date != rows[i].date) ==>
      ApplyUpdates(rows, code, us)[i] == rows[i]
    decreases |us|
  {
    if us != [] {
      var next := ApplyUpdate(rows, code, us[0]);
      ApplyUpdatesFrame(next, code, us[1..]);
      forall i | 0 <= i < |rows| && (forall k :: 0 <= k < |us| ==> us[k].date != rows[i].date)
        ensures ApplyUpdates(rows, code, us)[i] == rows[i]
      {
        assert us[0].date != rows[i].date;
        assert forall k :: 0 <= k < |us[1..]| ==> us[1..][k] == us[k + 1];
      }
    }
  }

  /** The updates a sync plans against the table state rows for the candidates stale. */
  function PlannedUpdates(rows: seq<StockRow>, code: string, stale: seq<PriceRow>): seq<PriceUpdate> {
    if stale == [] then []
    else Changes(Merged(stale, RangeRows(rows, code, MinRank(stale), MaxRank(stale))))
  }

  /** The table after one symbol has been synchronised with its cleaned rows. */
  function SyncedRows(rows: seq<StockRow>, code: string, cleaned: seq<PriceRow>): seq<StockRow> {
    var last := LatestFor(rows, code);
    var inserted := rows + Stored(code, NewRows(cleaned, last));
    ApplyUpdates(inserted, code, PlannedUpdates(inserted, code, OldRows(cleaned, last)))
  }

  /** Every planned update carries the DATE of one of the candidates. */
  lemma PlannedDates(rows: seq<StockRow>, code: string, stale: seq<PriceRow>, k: int)
    requires 0 <= k < |PlannedUpdates(rows, code, stale)|
    ensures exists i :: 0 <= i < |stale| && stale[i].date == PlannedUpdates(rows, code, stale)[k].date
  {
    var us := PlannedUpdates(rows, code, stale);
    var db := RangeRows(rows, code, MinRank(stale), MaxRank(stale));
    UpdateIff(stale, db, us[k]);
    var i, j :| 0 <= i < |stale| && 0 <= j < |db| && stale[i].date == db[j].date
      && !BarsClose(stale[i].bar, db[j].bar) && us[k] == PriceUpdate(stale[i].date, stale[i].bar);
  }

  /** No planned update names a DATE later than every candidate's. */
  lemma UpdatesMissLater(rows: seq<StockRow>, code: string, stale: seq<PriceRow>, x: StockRow, bound: int)
    requires forall i :: 0 <= i < |stale| ==> Rank(stale[i].date) <= bound
    requires Rank(x.date) > bound
    ensures forall k :: 0 <= k < |PlannedUpdates(rows, code, stale)| ==> PlannedUpdates(rows, code, stale)[k].date != x.date
  {
    forall k | 0 <= k < |PlannedUpdates(rows, code, stale)| ensures PlannedUpdates(rows, code, stale)[k].date != x.date {
      PlannedDates(rows, code, stale, k);
    }
  }

  /**
   * One symbol's sync: existing rows keep key and VOLUME, other symbols' rows
   * are untouched, and the appended rows are exactly the new rows, stored
   * after the newest DATE and never rewritten by the updates.
   */
  lemma SyncedRowsFrame(rows: seq<StockRow>, code: string, cleaned: seq<PriceRow>)
    ensures Keeps(rows, SyncedRows(rows, code, cleaned))
    ensures forall i :: 0 <= i < |rows| && rows[i].code != code ==> SyncedRows(rows, code, cleaned)[i] == rows[i]
    ensures SyncedRows(rows, code, cleaned)[|rows|..] == Stored(code, NewRows(cleaned, LatestFor(rows, code)))
  {
    SyncedKeepsOld(rows, code, cleaned);
    SyncedAppendsNew(rows, code, cleaned);
  }

  /** The rows already stored keep key and VOLUME, and other symbols' rows do not change. */
  lemma SyncedKeepsOld(rows: seq<StockRow>, code: string, cleaned: seq<PriceRow>)
    ensures Keeps(rows, SyncedRows(rows, code, cleaned))
    ensures forall i :: 0 <= i < |rows| && rows[i].code != code ==> SyncedRows(rows, code, cleaned)[i] == rows[i]
  {
    var last := LatestFor(rows, code);
    var inserted := rows + Stored(code, NewRows(cleaned, last));
    var us := PlannedUpdates(inserted, code, OldRows(cleaned, last));
    ApplyUpdatesFrame(inserted, code, us);
    forall i | 0 <= i < |rows| ensures inserted[i] == rows[i] {
    }
  }

  /** The appended rows are exactly the stored new rows: no update rewrites them. */
  lemma SyncedAppendsNew(rows: seq<StockRow>, code: string, cleaned: seq<PriceRow>)
    ensures |rows| <= |SyncedRows(rows, code, cleaned)|
    ensures SyncedRows(rows, code, cleaned)[|rows|..] == Stored(code, NewRows(cleaned, LatestFor(rows, code)))
  {
    var last := LatestFor(rows, code);
    var added := Stored(code, NewRows(cleaned, last));
    var stale := OldRows(cleaned, last);
    NewOldPartition(cleaned, last);
    if last.Some? {
      forall t | 0 <= t < |added| ensures Rank(added[t].date) > Rank(last.value) {
      }
      UpdatesMissAdded(rows, added, code, stale, Rank(last.value));
    } else {
      UntouchedTail(rows, added, code, []);
    }
  }

  /** Rows appended after every candidate's DATE come through the planned updates unchanged. */
  lemma UpdatesMissAdded(rows: seq<StockRow>, added: seq<StockRow>, code: string, stale: seq<PriceRow>, bound: int)
    requires forall i :: 0 <= i < |stale| ==> Rank(stale[i].date) <= bound
    requires forall t :: 0 <= t < |added| ==> Rank(added[t].date) > bound
    ensures var r := ApplyUpdates(rows + added, code, PlannedUpdates(rows + added, code, stale));
      |rows| <= |r| && r[|rows|..] == added
  {
    var us := PlannedUpdates(rows + added, code, stale);
    forall t | 0 <= t < |added| ensures forall k :: 0 <= k < |us| ==> us[k].date != added[t].date {
      UpdatesMissLater(rows + added, code, stale, added[t], bound);
    }
    UntouchedTail(rows, added, code, us);
  }

  /** Updates none of which names the DATE of an appended row leave the appended rows as they are. */
  lemma UntouchedTail(rows: seq<StockRow>, added: seq<StockRow>, code: string, us: seq<PriceUpdate>)
    requires forall t :: 0 <= t < |added| ==> forall k :: 0 <= k < |us| ==> us[k].date != added[t].date
    ensures var r := ApplyUpdates(rows + added, code, us);
      |rows| <= |r| && r[|rows|..] == added
  {
    var inserted := rows + added;
    ApplyUpdatesFrame(inserted, code, us);
    var r := ApplyUpdates(inserted, code, us);
    forall t | |rows| <= t < |inserted| ensures r[t] == inserted[t] {
      assert inserted[t] == added[t - |rows|];
    }
    assert r[|rows|..] == added;
  }

  /** A STOCK_PRICE connection and the table it reaches. */
  class StockDataInserter {
    var rows: seq<StockRow>
    var closed: bool

    constructor (stored: seq<StockRow>)
      ensures rows == stored && !closed
    {
      rows := stored;
      closed := false;
    }

    /** The newest DATE stored for code (ORDER BY DATE DESC LIMIT 1), None when there is none. */
    method SelectLast(code: string) returns (last: Option<Instant>)
      requires !closed
      ensures last.None? <==> forall i :: 0 <= i < |rows| ==> rows[i].code != code
      ensures last.Some? ==> StoredAt(rows, code, last.value)
      ensures last.Some? ==> forall i :: 0 <= i < |rows| && rows[i].code == code ==> Rank(rows[i].date) <= Rank(last.value)
      ensures last == LatestFor(rows, code)
    {
      last := LatestFor(rows, code);
    }

    /** The symbol's rows with lo <= DATE <= hi. */
    method SelectRange(code: string, lo: int, hi: int) returns (found: seq<StockRow>)
      requires !closed
      ensures found == RangeRows(rows, code, lo, hi)
    {
      found := RangeRows(rows, code, lo, hi);
    }

    /** insert_stock_price on a frame with the columns it reads: one record per row, appended. */
    method InsertStockPrice(code: string, prices: seq<PriceRow>)
      requires !closed
      modifies this
      ensures rows == old(rows) + Stored(code, prices) && !closed
    {
      var k := 0;
      var records: seq<StockRow> := [];
      while k < |prices|
        invariant 0 <= k <= |prices|
        invariant records == Stored(code, prices[..k])
      {
        records := records + [StockRow(code, prices[k].date, prices[k].bar, StoredVolume(prices[k].volume))];
        k := k + 1;
      }
      assert prices[..k] == prices;
      rows := rows + records;
    }

    /** update({OPEN, HIGH, LOW, CLOSE}, "COMPANY_CODE=code AND DATE=u.date"). */
    method UpdatePrice(code: string, u: PriceUpdate)
      requires !closed
      modifies this
      ensures rows == ApplyUpdate(old(rows), code, u) && !closed
    {
      rows := ApplyUpdate(rows, code, u);
    }

    method Close()
      modifies this
      ensures closed && rows == old(rows)
    {
      closed := true;
    }
  }

  lemma ApplyUpdatesSnoc(rows: seq<StockRow>, code: string, us: seq<PriceUpdate>, u: PriceUpdate)
    ensures ApplyUpdates(rows, code, us + [u]) == ApplyUpdate(ApplyUpdates(rows, code, us), code, u)
    decreases |us|
  {
    if us != [] {
      assert (us + [u])[1..] == us[1..] + [u];
      ApplyUpdatesSnoc(ApplyUpdate(rows, code, us[0]), code, us[1..], u);
    }
  }

  /** The loop over the merged pairs: an UPDATE for each changed pair, in order. */
  method WalkMerged(db: StockDataInserter, code: string, pairs: seq<(PriceRow, StockRow)>)
    requires !db.closed
    modifies db
    ensures !db.closed
    ensures db.rows == ApplyUpdates(old(db.rows), code, Changes(pairs))
  {
    var k := 0;
    while k < |pairs|
      invariant 0 <= k <= |pairs| && !db.closed
      invariant db.rows == ApplyUpdates(old(db.rows), code, Changes(pairs[..k]))
    {
      assert pairs[..k + 1][..k] == pairs[..k];
      assert Changes(pairs[..k + 1]) == Changes(pairs[..k]) + (if Changed(pairs[k]) then [UpdateOf(pairs[k])] else []);
      if Changed(pairs[k]) {
        ApplyUpdatesSnoc(old(db.rows), code, Changes(pairs[..k]), UpdateOf(pairs[k]));
        db.UpdatePrice(code, UpdateOf(pairs[k]));
      } else {
        assert Changes(pairs[..k + 1]) == Changes(pairs[..k]);
      }
      k := k + 1;
    }
    assert pairs[..k] == pairs;
  }

  /** One symbol: insert the new rows, then walk the merged candidates and update the changed ones. */
  method SyncSymbol(db: StockDataInserter, code: string, cleaned: seq<PriceRow>)
    requires !db.closed
    modifies db
    ensures !db.closed
    ensures db.rows == SyncedRows(old(db.rows), code, cleaned)
  {
    var last := db.SelectLast(code);
    var added := NewRows(cleaned, last);
    if added != [] {
      db.InsertStockPrice(code, added);
    } else {
      assert old(db.rows) + Stored(code, added) == old(db.rows);
    }
    ghost var inserted := db.rows;
    assert inserted == old(db.rows) + Stored(code, NewRows(cleaned, LatestFor(old(db.rows), code)));
    var stale := OldRows(cleaned, last);
    if stale != [] {
      var dbRows := db.SelectRange(code, MinRank(stale), MaxRank(stale));
      if dbRows != [] {
        WalkMerged(db, code, Merged(stale, dbRows));
      } else {
        MergedNoStored(stale);
      }
    }
    assert db.rows == ApplyUpdates(inserted, code, PlannedUpdates(inserted, code, stale));
  }

  /** The folder of a symbol's CSV files: os.path.join(base_path, symbol). */
  function SymbolFolder(basePath: string, symbol: string): string {
    Join(basePath, symbol)
  }

  /** pd.read_csv on each globbed file, in glob order; None when a file cannot be read. */
  method ReadParts(disk: PriceDisk, csvFiles: seq<string>) returns (parts: Option<seq<seq<CsvPriceRow>>>)
    ensures parts.None? <==> exists f :: 0 <= f < |csvFiles| && csvFiles[f] !in disk.files
    ensures parts.Some? ==> |parts.value| == |csvFiles|
    ensures parts.Some? ==> forall f :: 0 <= f < |csvFiles| ==> parts.value[f] == disk.files[csvFiles[f]]
  {
    var read: seq<seq<CsvPriceRow>> := [];
    var f := 0;
    while f < |csvFiles|
      invariant 0 <= f <= |csvFiles| && |read| == f
      invariant forall g :: 0 <= g < f ==> csvFiles[g] in disk.files && read[g] == disk.files[csvFiles[g]]
    {
      if csvFiles[f] !in disk.files {
        return None;
      }
      read := read + [disk.files[csvFiles[f]]];
      f := f + 1;
    }
    parts := Some(read);
  }

  /** A synced table's appended rows all belong to the synced symbol. */
  lemma SyncedRowsCodes(rows: seq<StockRow>, code: string, cleaned: seq<PriceRow>)
    ensures forall i :: |rows| <= i < |SyncedRows(rows, code, cleaned)| ==> SyncedRows(rows, code, cleaned)[i].code == code
  {
    SyncedRowsFrame(rows, code, cleaned);
    var r := SyncedRows(rows, code, cleaned);
    forall i | |rows| <= i < |r| ensures r[i].code == code {
      assert r[i] == r[|rows|..][i - |rows|];
    }
  }

  /** The symbol's folder exists and its glob found at least one .csv file. */
  predicate HasCsvFiles(disk: PriceDisk, folder: string) {
    folder in disk.dirs && folder in disk.globs && disk.globs[folder] != []
  }

  /** Every globbed file can be read. */
  predicate Readable(disk: PriceDisk, files: seq<string>) {
    forall f :: 0 <= f < |files| ==> files[f] in disk.files
  }

  /** The frames of the globbed files, in glob order. */
  function PartsOf(disk: PriceDisk, files: seq<string>): seq<seq<CsvPriceRow>>
    requires Readable(disk, files)
  {
    seq(|files|, f requires 0 <= f < |files| => disk.files[files[f]])
  }

  /**
   * One configured symbol: skipped (true) without a folder or .csv files,
   * false when one of its files cannot be read, otherwise synchronised with
   * its cleaned rows.
   */
  function SyncedOne(rows: seq<StockRow>, symbol: string, basePath: string, disk: PriceDisk,
                     parse: string -> Option<Instant>): (seq<StockRow>, bool)
  {
    var folder := SymbolFolder(basePath, symbol);
    if !HasCsvFiles(disk, folder) then (rows, true)
    else if !Readable(disk, disk.globs[folder]) then (rows, false)
    else (SyncedRows(rows, symbol, CleanPrices(PartsOf(disk, disk.globs[folder]), parse)), true)
  }

  /**
   * The table, and whether the walk completed, after update_stock_price_main
   * has walked stocks in order; the first symbol with an unreadable file
   * ends the walk.
   */
  function SyncedAll(rows: seq<StockRow>, stocks: seq<string>, basePath: string, disk: PriceDisk,
                     parse: string -> Option<Instant>): (seq<StockRow>, bool)
    decreases |stocks|
  {
    if stocks == [] then (rows, true)
    else
      var prev := SyncedAll(rows, stocks[..|stocks| - 1], basePath, disk, parse);
      if !prev.1 then prev else SyncedOne(prev.0, stocks[|stocks| - 1], basePath, disk, parse)
  }

  /** A symbol whose folder holds a .csv file that cannot be read. */
  predicate Unreadable(disk: PriceDisk, basePath: string, symbol: string) {
    var folder := SymbolFolder(basePath, symbol);
    HasCsvFiles(disk, folder) && !Readable(disk, disk.globs[folder])
  }

  /** The walk completes exactly when no configured symbol has an unreadable .csv file. */
  lemma {:induction false} SyncedAllCompletes(rows: seq<StockRow>, stocks: seq<string>, basePath: string,
                                              disk: PriceDisk, parse: string -> Option<Instant>)
    ensures SyncedAll(rows, stocks, basePath, disk, parse).1
      <==> forall s :: 0 <= s < |stocks| ==> !Unreadable(disk, basePath, stocks[s])
    decreases |stocks|
  {
    if stocks != [] {
      var init := stocks[..|stocks| - 1];
      SyncedAllCompletes(rows, init, basePath, disk, parse);
      if forall s :: 0 <= s < |stocks| ==> !Unreadable(disk, basePath, stocks[s]) {
        forall s | 0 <= s < |init| ensures !Unreadable(disk, basePath, init[s]) {
          assert init[s] == stocks[s];
        }
      }
      if forall s :: 0 <= s < |init| ==> !Unreadable(disk, basePath, init[s]) {
        forall s | 0 <= s < |stocks| - 1 ensures !Unreadable(disk, basePath, stocks[s]) {
          assert init[s] == stocks[s];
        }
      }
    }
  }

  /** Once the walk has stopped, the symbols after it change nothing. */
  lemma {:induction false} SyncedAllStops(rows: seq<StockRow>, stocks: seq<string>, k: int, basePath: string,
                                          disk: PriceDisk, parse: string -> Option<Instant>)
    requires 0 <= k <= |stocks| && !SyncedAll(rows, stocks[..k], basePath, disk, parse).1
    ensures SyncedAll(rows, stocks, basePath, disk, parse) == SyncedAll(rows, stocks[..k], basePath, disk, parse)
    decreases |stocks| - k
  {
    if k < |stocks| {
      var next := stocks[..k + 1];
      assert next[..k] == stocks[..k];
      assert SyncedAll(rows, next, basePath, disk, parse) == SyncedAll(rows, stocks[..k], basePath, disk, parse);
      SyncedAllStops(rows, stocks, k + 1, basePath, disk, parse);
    } else {
      assert stocks[..k] == stocks;
    }
  }

  /** One symbol's turn of the loop; the caller closes the connection when it returns false. */
  method SyncStock(db: StockDataInserter, symbol: string, basePath: string, disk: PriceDisk,
                   parse: string -> Option<Instant>) returns (ok: bool)
    requires !db.closed
    modifies db
    ensures !db.closed
    ensures (db.rows, ok) == SyncedOne(old(db.rows), symbol, basePath, disk, parse)
  {
    ok := true;
    var folder := SymbolFolder(basePath, symbol);
    if folder in disk.dirs && folder in disk.globs && disk.globs[folder] != [] {
      var parts := ReadParts(disk, disk.globs[folder]);
      if parts.None? {
        return false;
      }
      assert parts.value == PartsOf(disk, disk.globs[folder]);
      var cleaned := CleanPrices(parts.value, parse);
      SyncSymbol(db, symbol, cleaned);
    }
  }

  /** update_stock_price_main over the configured symbols; false when reading a CSV file raised. */
  method UpdateStockPriceMain(db: StockDataInserter, stocks: seq<string>, basePath: string, disk: PriceDisk,
                              parse: string -> Option<Instant>) returns (completed: bool)
    requires !db.closed
    modifies db
    ensures db.closed
    ensures (db.rows, completed) == SyncedAll(old(db.rows), stocks, basePath, disk, parse)
  {
    var s := 0;
    while s < |stocks|
      invariant 0 <= s <= |stocks| && !db.closed
      invariant (db.rows, true) == SyncedAll(old(db.rows), stocks[..s], basePath, disk, parse)
    {
      assert stocks[..s + 1][..s] == stocks[..s];
      var ok := SyncStock(db, stocks[s], basePath, disk, parse);
      if !ok {
        db.Close();
        SyncedAllStops(old(db.rows), stocks, s + 1, basePath, disk, parse);
        return false;
      }
      s := s + 1;
    }
    assert stocks[..s] == stocks;
    db.Close();
    completed := true;
  }

  /**
   * What the walk does to the table: stored rows keep key and VOLUME, rows of
   * unconfigured symbols are untouched, and every appended row belongs to a
   * configured symbol.
   */
  lemma {:induction false} SyncedAllFrame(rows: seq<StockRow>, stocks: seq<string>, basePath: string,
                                          disk: PriceDisk, parse: string -> Option<Instant>)
    ensures Keeps(rows, SyncedAll(rows, stocks, basePath, disk, parse).0)
    ensures forall i :: 0 <= i < |rows| && rows[i].code !in stocks ==> SyncedAll(rows, stocks, basePath, disk, parse).0[i] == rows[i]
    ensures forall i :: |rows| <= i < |SyncedAll(rows, stocks, basePath, disk, parse).0| ==>
      SyncedAll(rows, stocks, basePath, disk, parse).0[i].code in stocks
    decreases |stocks|
  {
    if stocks != [] {
      var init := stocks[..|stocks| - 1];
      var symbol := stocks[|stocks| - 1];
      assert stocks == init + [symbol];
      SyncedAllFrame(rows, init, basePath, disk, parse);
      var prev := SyncedAll(rows, init, basePath, disk, parse);
      var folder := SymbolFolder(basePath, symbol);
      if prev.1 && HasCsvFiles(disk, folder) && Readable(disk, disk.globs[folder]) {
        var cleaned := CleanPrices(PartsOf(disk, disk.globs[folder]), parse);
        var next := SyncedRows(prev.0, symbol, cleaned);
        assert SyncedAll(rows, stocks, basePath, disk, parse).0 == next;
        SyncedRowsFrame(prev.0, symbol, cleaned);
        SyncedRowsCodes(prev.0, symbol, cleaned);
        forall i | 0 <= i < |rows| && rows[i].code !in stocks ensures next[i] == rows[i] {
          assert prev.0[i].code == rows[i].code;
        }
      }
    }
  }

  // ------------------------------------------------- the upper-cased header

  function UpperChar(c: char): char {
    if 'a' <= c <= 'z' then (c as int - 32) as char else c
  }

  /** str.upper on an ASCII header name. */
  function Upper(s: string): (r: string)
    ensures |r| == |s| && forall i :: 0 <= i < |s| ==> r[i] == UpperChar(s[i])
  {
    seq(|s|, i requires 0 <= i < |s| => UpperChar(s[i]))
  }

  function UpperAll(cols: seq<string>): (r: seq<string>)
    ensures |r| == |cols| && forall i :: 0 <= i < |cols| ==> r[i] == Upper(cols[i])
  {
    seq(|cols|, i requires 0 <= i < |cols| => Upper(cols[i]))
  }

  /** The lower-case columns insert_stock_price reads, in the order it reads them. */
  const InsertReads: seq<string> := ["volume", "date", "open", "high", "low", "close"]

  /** The first of names missing from columns, if any. */
  function FirstMissing(names: seq<string>, columns: seq<string>): (r: Option<string>)
    ensures r.None? <==> forall i :: 0 <= i < |names| ==> names[i] in columns
    ensures r.Some? ==> r.value in names && r.value !in columns
  {
    if names == [] then None
    else if names[0] !in columns then Some(names[0])
    else
      var r := FirstMissing(names[1..], columns);
      assert forall i :: 1 <= i < |names| ==> names[i] == names[1..][i - 1];
      r
  }

  /** insert_stock_price as written: a KeyError names the first column it reads that the frame lacks. */
  function InsertColumnsAsWritten(columns: seq<string>): (r: Result<(), string>)
    ensures r.Success? <==> forall i :: 0 <= i < |InsertReads| ==> InsertReads[i] in columns
    ensures r.Failure? ==> r.error in InsertReads && r.error !in columns
  {
    var m := FirstMissing(InsertReads, columns);
    if m.Some? then Failure(m.value) else Success(())
  }

  /** No upper-cased name is "volume". */
  lemma UpperIsNeverVolume(s: string)
    ensures Upper(s) != "volume"
  {
    if |s| == 6 {
      assert Upper(s)[0] == UpperChar(s[0]) != 'v';
    }
  }

  /**
   * Every frame the script builds has an upper-cased header, so every call of
   * insert_stock_price as written fails on "volume" before anything is inserted.
   */
  lemma UpperedFrameRaises(header: seq<string>)
    ensures InsertColumnsAsWritten(UpperAll(header)) == Failure("volume")
  {
    var cols := UpperAll(header);
    forall i | 0 <= i < |cols| ensures cols[i] != "volume" {
      UpperIsNeverVolume(header[i]);
    }
    assert "volume" !in cols;
  }

  /** The header the price CSV files are written with satisfies the insert once it is not upper-cased. */
  lemma LowerHeaderAccepted()
    ensures InsertColumnsAsWritten(["date", "open", "high", "low", "close", "volume"]).Success?
  {
    var cols := ["date", "open", "high", "low", "close", "volume"];
    assert forall i :: 0 <= i < |InsertReads| ==> InsertReads[i] in cols;
  }
}
