/**
 * RiskDataInserter: writes scored rows into the RISK table, keyed by
 * (COMPANY_CODE, MODEL_NAME, PREDICT_DATE, TEST_DATE), updating an existing
 * entry and inserting a new one otherwise. COMPANY_CODE must name a row of
 * COMPANY_META; a statement that breaks that is rolled back.
 */
module RiskTable {
  import opened Wrappers

  datatype RiskKey = RiskKey(companyCode: string, modelName: string, predictDate: string, testDate: string)

  /** The non-key columns of a RISK row. */
  datatype RiskEntry = RiskEntry(analysisResult: string, riskScore: real)

  /** A row of the incoming frame; a NaN risk_score is None. */
  datatype InputRow = InputRow(companyCode: string, modelName: string, analysisResult: string,
                               testDate: string, predictDate: string, riskScore: Option<real>)

  const RequiredColumns: set<string> :=
    {"company_code", "model_name", "analysis_result", "test_date", "predict_date", "risk_score"}

  // ---- rounding: numpy's round(x, 4) is rint(x * 10**4) / 10**4 ----

  const Decimals: real := 10000.0

  /** np.rint: the nearest integer, ties to the even one. */
  function RoundHalfEven(y: real): (n: int)
    ensures -0.5 <= (n as real) - y <= 0.5
  {
    var f := y.Floor;
    var frac := y - f as real;
    if frac < 0.5 then f
    else if frac > 0.5 then f + 1
    else if f % 2 == 0 then f
    else f + 1
  }

  function Round4(x: real): real {
    (RoundHalfEven(x * Decimals) as real) / Decimals
  }

  /** Rounding moves a score by at most half a unit in the fourth decimal. */
  lemma Round4Error(x: real)
    ensures -0.00005 <= Round4(x) - x <= 0.00005
  {
    var n := RoundHalfEven(x * Decimals);
    assert (n as real) / Decimals - x == ((n as real) - x * Decimals) / Decimals;
  }

  /** Rounding an already rounded score changes nothing. */
  lemma Round4Idempotent(x: real)
    ensures Round4(Round4(x)) == Round4(x)
  {
    var n := RoundHalfEven(x * Decimals);
    assert Round4(x) * Decimals == n as real;
    assert RoundHalfEven(n as real) == n;
  }

  /** fillna(0.0) then astype(float).round(4) on risk_score. */
  function Normalize(r: InputRow): (n: InputRow)
    ensures n.riskScore.Some?
    ensures n == r.(riskScore := n.riskScore)
  {
    r.(riskScore := Some(Round4(r.riskScore.GetOr(0.0))))
  }

  function NormalizeRows(rows: seq<InputRow>): (out: seq<InputRow>)
    ensures |out| == |rows| && forall i :: 0 <= i < |rows| ==> out[i] == Normalize(rows[i])
  {
    seq(|rows|, i requires 0 <= i < |rows| => Normalize(rows[i]))
  }

  /** Normalising a normalised frame changes nothing. */
  lemma NormalizeRowsIdempotent(rows: seq<InputRow>)
    ensures NormalizeRows(NormalizeRows(rows)) == NormalizeRows(rows)
  {
    forall i | 0 <= i < |rows|
      ensures Normalize(Normalize(rows[i])) == Normalize(rows[i])
    {
      Round4Idempotent(rows[i].riskScore.GetOr(0.0));
    }
  }

  function KeyOf(r: InputRow): RiskKey {
    RiskKey(r.companyCode, r.modelName, r.predictDate, r.testDate)
  }

  function EntryOf(r: InputRow): RiskEntry {
    RiskEntry(r.analysisResult, r.riskScore.GetOr(0.0))
  }

  // ---- the table as a value ----

  /** Every key's company exists in COMPANY_META. */
  predicate ForeignKeysHold(table: map<RiskKey, RiskEntry>, companies: set<string>) {
    forall k :: k in table ==> k.companyCode in companies
  }

  /** One row: update the entry if the key exists, insert it if the company is known, else nothing. */
  function Upsert(table: map<RiskKey, RiskEntry>, companies: set<string>, r: InputRow): (t: map<RiskKey, RiskEntry>)
    ensures ForeignKeysHold(table, companies) ==> ForeignKeysHold(t, companies)
  {
    if KeyOf(r) in table then table[KeyOf(r) := EntryOf(r)]
    else if r.companyCode in companies then table[KeyOf(r) := EntryOf(r)]
    else table
  }

  /** The rows applied one after another, in frame order. */
  function UpsertAll(table: map<RiskKey, RiskEntry>, companies: set<string>, rows: seq<InputRow>): (t: map<RiskKey, RiskEntry>)
    ensures ForeignKeysHold(table, companies) ==> ForeignKeysHold(t, companies)
  {
    if rows == [] then table
    else Upsert(UpsertAll(table, companies, rows[..|rows| - 1]), companies, rows[|rows| - 1])
  }

  /** The entry of the last row carrying key k, if any. */
  function LastFor(rows: seq<InputRow>, k: RiskKey): Option<RiskEntry> {
    if rows == [] then None
    else if KeyOf(rows[|rows| - 1]) == k then Some(EntryOf(rows[|rows| - 1]))
    else LastFor(rows[..|rows| - 1], k)
  }

  /**
   * The table after the rows: a key whose company is known and that some row
   * carries holds the last such row's values; every other key is as before.
   */
  lemma {:induction false} UpsertAllAt(table: map<RiskKey, RiskEntry>, companies: set<string>, rows: seq<InputRow>, k: RiskKey)
    requires ForeignKeysHold(table, companies)
    ensures var t := UpsertAll(table, companies, rows);
      if LastFor(rows, k).Some? && k.companyCode in companies then k in t && t[k] == LastFor(rows, k).value
      else (k in t <==> k in table) && (k in table ==> t[k] == table[k])
  {
    if rows != [] {
      UpsertAllAt(table, companies, rows[..|rows| - 1], k);
    }
  }

  /** For a repeated key the last row's values persist. */
  lemma LastWriteWins(table: map<RiskKey, RiskEntry>, companies: set<string>, rows: seq<InputRow>, i: int)
    requires ForeignKeysHold(table, companies)
    requires 0 <= i < |rows| && rows[i].companyCode in companies
    requires forall j :: i < j < |rows| ==> KeyOf(rows[j]) != KeyOf(rows[i])
    ensures KeyOf(rows[i]) in UpsertAll(table, companies, rows)
    ensures UpsertAll(table, companies, rows)[KeyOf(rows[i])] == EntryOf(rows[i])
  {
    LastForIsLast(rows, i);
    UpsertAllAt(table, companies, rows, KeyOf(rows[i]));
  }

  lemma {:induction false} LastForIsLast(rows: seq<InputRow>, i: int)
    requires 0 <= i < |rows|
    requires forall j :: i < j < |rows| ==> KeyOf(rows[j]) != KeyOf(rows[i])
    ensures LastFor(rows, KeyOf(rows[i])) == Some(EntryOf(rows[i]))
  {
    if i < |rows| - 1 {
      LastForIsLast(rows[..|rows| - 1], i);
    }
  }

  lemma {:induction false} LastForAbsent(rows: seq<InputRow>, k: RiskKey)
    requires forall j :: 0 <= j < |rows| ==> KeyOf(rows[j]) != k
    ensures LastFor(rows, k).None?
  {
    if rows != [] {
      LastForAbsent(rows[..|rows| - 1], k);
    }
  }

  /** Keys no row carries keep their entry, and no key appears or disappears. */
  lemma UpsertFrame(table: map<RiskKey, RiskEntry>, companies: set<string>, rows: seq<InputRow>, k: RiskKey)
    requires ForeignKeysHold(table, companies)
    requires forall j :: 0 <= j < |rows| ==> KeyOf(rows[j]) != k
    ensures k in UpsertAll(table, companies, rows) <==> k in table
    ensures k in table ==> UpsertAll(table, companies, rows)[k] == table[k]
  {
    LastForAbsent(rows, k);
    UpsertAllAt(table, companies, rows, k);
  }

  /** Applying the same rows twice gives the table applying them once gives. */
  lemma UpsertAllIdempotent(table: map<RiskKey, RiskEntry>, companies: set<string>, rows: seq<InputRow>)
    requires ForeignKeysHold(table, companies)
    ensures UpsertAll(UpsertAll(table, companies, rows), companies, rows) == UpsertAll(table, companies, rows)
  {
    var once := UpsertAll(table, companies, rows);
    var twice := UpsertAll(once, companies, rows);
    forall k
      ensures (k in twice <==> k in once) && (k in once ==> twice[k] == once[k])
    {
      UpsertAllAt(table, companies, rows, k);
      UpsertAllAt(once, companies, rows, k);
    }
  }

  /** Re-applying a frame that was already written (and so already normalised) leaves the table unchanged. */
  lemma ReapplyUnchanged(table: map<RiskKey, RiskEntry>, companies: set<string>, rows: seq<InputRow>)
    requires ForeignKeysHold(table, companies)
    ensures var n := NormalizeRows(rows);
      var t := UpsertAll(table, companies, n);
      UpsertAll(t, companies, NormalizeRows(n)) == t
  {
    NormalizeRowsIdempotent(rows);
    UpsertAllIdempotent(table, companies, NormalizeRows(rows));
  }

  // ---- the inserter ----

  /** The caller's data frame; insert_or_update_risk rewrites its risk_score column in place. */
  class ScoreFrame {
    var columns: set<string>
    var rows: seq<InputRow>

    constructor (columns: set<string>, rows: seq<InputRow>)
      ensures this.columns == columns && this.rows == rows
    {
      this.columns := columns;
      this.rows := rows;
    }
  }

  class RiskDataInserter {
    /** The RISK table. */
    var table: map<RiskKey, RiskEntry>
    /** The COMPANY_CODE values of COMPANY_META. */
    const companies: set<string>

    ghost predicate Valid()
      reads this
    {
      ForeignKeysHold(table, companies)
    }

    constructor (companies: set<string>, table: map<RiskKey, RiskEntry>)
      requires ForeignKeysHold(table, companies)
      ensures Valid() && this.table == table && this.companies == companies
    {
      this.companies := companies;
      this.table := table;
    }

    /** The generic select override does nothing and returns None. */
    method Select(where: Option<string>) returns (r: Option<seq<RiskEntry>>)
      ensures r == None
    {
      r := None;
    }

    /** The generic update override does nothing and returns None. */
    method Update(data: map<string, string>, where: string) returns (r: Option<seq<RiskEntry>>)
      ensures r == None
    {
      r := None;
    }

    /** The generic delete override does nothing and returns None. */
    method Delete(where: string) returns (r: Option<seq<RiskEntry>>)
      ensures r == None
    {
      r := None;
    }

    /** select_risk_rows: the rows stored under the key (at most one, the key being unique). */
    method SelectRiskRows(key: RiskKey) returns (rows: Option<seq<RiskEntry>>)
      ensures rows == Some(if key in table then [table[key]] else [])
    {
      if key in table {
        rows := Some([table[key]]);
      } else {
        rows := Some([]);
      }
    }

    /**
     * insert_risk_row: commits a new entry; an unknown company or an existing
     * key makes the INSERT fail and the rollback leaves the table as it was.
     */
    method InsertRiskRow(row: InputRow)
      modifies this
      requires Valid()
      ensures Valid()
      ensures row.companyCode in companies && KeyOf(row) !in old(table) ==> table == old(table)[KeyOf(row) := EntryOf(row)]
      ensures !(row.companyCode in companies && KeyOf(row) !in old(table)) ==> table == old(table)
    {
      if row.companyCode in companies && KeyOf(row) !in table {
        table := table[KeyOf(row) := EntryOf(row)];
      }
    }

    /** update_risk_row: sets ANALYSIS_RESULT and RISK_SCORE of the matching entry, if there is one. */
    method UpdateRiskRow(row: InputRow)
      modifies this
      requires Valid()
      ensures Valid()
      ensures KeyOf(row) in old(table) ==> table == old(table)[KeyOf(row) := EntryOf(row)]
      ensures KeyOf(row) !in old(table) ==> table == old(table)
    {
      if KeyOf(row) in table {
        table := table[KeyOf(row) := EntryOf(row)];
      }
    }

    /**
     * insert_or_update_risk: nothing for an empty frame or one missing a
     * required column; otherwise the frame's scores are normalised in place
     * and its rows are upserted in order.
     */
    method InsertOrUpdateRisk(df: ScoreFrame)
      modifies this, df
      requires Valid()
      ensures Valid()
      ensures df.columns == old(df.columns)
      ensures old(df.rows) == [] || !(RequiredColumns <= old(df.columns)) ==>
        table == old(table) && df.rows == old(df.rows)
      ensures old(df.rows) != [] && RequiredColumns <= old(df.columns) ==>
        df.rows == NormalizeRows(old(df.rows)) && table == UpsertAll(old(table), companies, df.rows)
    {
      if df.rows == [] {
        return;
      }
      if !(RequiredColumns <= df.columns) {
        return;
      }
      df.rows := NormalizeRows(df.rows);
      var rows := df.rows;
      var i := 0;
      while i < |rows|
        invariant 0 <= i <= |rows| && df.rows == rows && df.columns == old(df.columns)
        invariant Valid() && table == UpsertAll(old(table), companies, rows[..i])
      {
        var row := rows[i];
        assert rows[..i + 1][..i] == rows[..i];
        var existing := SelectRiskRows(KeyOf(row));
        if existing.Some? && |existing.value| > 0 {
          UpdateRiskRow(row);
        } else {
          InsertRiskRow(row);
        }
        i := i + 1;
      }
      assert rows[..i] == rows;
    }
  }
}
