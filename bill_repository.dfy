/**
  The SQLite repository as three in-memory tables keyed by their primary
  keys: bills by `id`, analyses and scripts by `billId`. Collections are
  stored as JSON text columns; the JSON encoder and decoder are not part of
  this model and come in as a `Codec` pair of functions. A statement may
  fail; which one fails is an input (`DbRun`).
*/
module BillRepository {
  import opened Wrappers
  import opened JsError
  import opened Models

  /** `JSON.stringify` paired with a `JSON.parse` that reports failure. */
  datatype Codec<!T> = Codec(encode: T -> string, decode: string -> Option<T>)

  ghost predicate RoundTrips<T(!new)>(c: Codec<T>) {
    forall x: T :: c.decode(c.encode(x)) == Some(x)
  }

  datatype Codecs = Codecs(
    lineItems: Codec<seq<LineItem>>,
    findings: Codec<seq<Finding>>,
    sections: Codec<seq<ScriptSection>>,
    keyPoints: Codec<seq<string>>)

  ghost predicate Faithful(cs: Codecs) {
    RoundTrips(cs.lineItems) && RoundTrips(cs.findings) && RoundTrips(cs.sections) && RoundTrips(cs.keyPoints)
  }

  /** How the database runs a call's statements: all complete, or statement
      number `step` (counting from 0) rejects with `err`, after the earlier
      ones completed. */
  datatype DbRun = Completes | FailsAt(step: nat, err: Thrown)

  predicate Completed(run: DbRun, step: nat) {
    run.Completes? || step < run.step
  }

  /** The outcome of a call of `n` statements. */
  function Settle(run: DbRun, n: nat): (r: Outcome<Thrown>)
    ensures r.Pass? <==> forall i :: 0 <= i < n ==> Completed(run, i)
  {
    if run.FailsAt? && run.step < n then
      assert !Completed(run, run.step);
      Fail(run.err)
    else Pass
  }

  /** The parsed value, or the fallback when the text does not parse. */
  function SafeJsonParse<T>(decode: string -> Option<T>, json: string, fallback: T): (r: T)
    ensures decode(json).Some? ==> r == decode(json).value
    ensures decode(json).None? ==> r == fallback
  {
    match decode(json)
    case Some(v) => v
    case None => fallback
  }

  // --- Rows ---

  datatype BillRow = BillRow(
    id: string, imageUri: string, category: BillCategory, provider: string,
    totalAmount: int, billDate: string, createdAt: string, lineItems: string)

  datatype AnalysisRow = AnalysisRow(
    billId: string, summary: string, overallRiskScore: int,
    totalIdentifiedSavings: int, findings: string, createdAt: string)

  datatype ScriptRow = ScriptRow(
    billId: string, format: ScriptFormat, sections: string, keyPoints: string, createdAt: string)

  function BillToRow(c: Codec<seq<LineItem>>, b: Bill): BillRow {
    BillRow(b.id, b.imageUri, b.category, b.provider, b.totalAmount, b.billDate, b.createdAt,
      c.encode(b.lineItems))
  }

  function RowToBill(c: Codec<seq<LineItem>>, row: BillRow): (b: Bill)
    ensures b.id == row.id && b.createdAt == row.createdAt
  {
    Bill(row.id, row.imageUri, row.category, row.provider, row.totalAmount, row.billDate, row.createdAt,
      SafeJsonParse(c.decode, row.lineItems, []))
  }

  function AnalysisToRow(c: Codec<seq<Finding>>, a: AnalysisResult): AnalysisRow {
    AnalysisRow(a.billId, a.summary, a.overallRiskScore, a.totalIdentifiedSavings,
      c.encode(a.findings), a.createdAt)
  }

  function RowToAnalysis(c: Codec<seq<Finding>>, row: AnalysisRow): AnalysisResult {
    AnalysisResult(row.billId, row.summary, row.overallRiskScore, row.totalIdentifiedSavings,
      SafeJsonParse(c.decode, row.findings, []), row.createdAt)
  }

  function ScriptToRow(cs: Codecs, s: NegotiationScript): ScriptRow {
    ScriptRow(s.billId, s.format, cs.sections.encode(s.sections), cs.keyPoints.encode(s.keyPoints), s.createdAt)
  }

  function RowToScript(cs: Codecs, row: ScriptRow): NegotiationScript {
    NegotiationScript(row.billId, row.format,
      SafeJsonParse(cs.sections.decode, row.sections, []),
      SafeJsonParse(cs.keyPoints.decode, row.keyPoints, []),
      row.createdAt)
  }

  /** With a faithful codec a stored record reads back as it was saved. */
  lemma RowsRoundTrip(cs: Codecs, b: Bill, a: AnalysisResult, s: NegotiationScript)
    requires Faithful(cs)
    ensures RowToBill(cs.lineItems, BillToRow(cs.lineItems, b)) == b
    ensures RowToAnalysis(cs.findings, AnalysisToRow(cs.findings, a)) == a
    ensures RowToScript(cs, ScriptToRow(cs, s)) == s
  {
    assert cs.lineItems.decode(cs.lineItems.encode(b.lineItems)) == Some(b.lineItems);
    assert cs.findings.decode(cs.findings.encode(a.findings)) == Some(a.findings);
    assert cs.sections.decode(cs.sections.encode(s.sections)) == Some(s.sections);
    assert cs.keyPoints.decode(cs.keyPoints.encode(s.keyPoints)) == Some(s.keyPoints);
  }

  /** A row whose JSON column does not parse reads back with an empty
      collection; every other column is kept. */
  lemma UnparsableColumnReadsEmpty(c: Codec<seq<LineItem>>, row: BillRow)
    requires c.decode(row.lineItems).None?
    ensures RowToBill(c, row) == Bill(row.id, row.imageUri, row.category, row.provider,
      row.totalAmount, row.billDate, row.createdAt, [])
  {
  }

  // --- Lookups on a table ---

  function Lookup<R, T>(table: map<string, R>, key: string, read: R -> T): (r: Option<T>)
    ensures r.Some? <==> key in table
    ensures r.Some? ==> r.value == read(table[key])
  {
    if key in table then Some(read(table[key])) else None
  }

  /** An upsert is read back by its key, and leaves every other key as it
      was. */
  lemma UpsertThenLookup<R, T>(table: map<string, R>, key: string, row: R, read: R -> T, other: string)
    ensures Lookup(table[key := row], key, read) == Some(read(row))
    ensures other != key ==> Lookup(table[key := row], other, read) == Lookup(table, other, read)
  {
  }

  // --- Aggregates ---

  /** `SUM(totalIdentifiedSavings)`, with the empty sum read as 0. */
  ghost function SumSavings(m: map<string, AnalysisRow>): (s: int)
    ensures m == map[] ==> s == 0
    decreases |m|
  {
    if m == map[] then 0
    else
      var k :| k in m;
      assert |m - {k}| < |m| by { assert m.Keys == (m - {k}).Keys + {k}; }
      m[k].totalIdentifiedSavings + SumSavings(m - {k})
  }

  /** The sum does not depend on the order the rows are visited in: any row
      can be taken out first. */
  lemma {:induction false} SumSavingsRemove(m: map<string, AnalysisRow>, k: string)
    requires k in m
    ensures SumSavings(m) == m[k].totalIdentifiedSavings + SumSavings(m - {k})
    decreases |m|
  {
    var j :| j in m && SumSavings(m) == m[j].totalIdentifiedSavings + SumSavings(m - {j});
    if j != k {
      var mj, mk := m - {j}, m - {k};
      assert |m - {k}| < |m| by { assert m.Keys == mk.Keys + {k}; }
      assert |m - {j}| < |m| by { assert m.Keys == mj.Keys + {j}; }
      SumSavingsRemove(mj, k);
      SumSavingsRemove(mk, j);
      assert mj - {k} == mk - {j};
    }
  }

  /** Storing an analysis under a key replaces that key's contribution to
      the total. */
  lemma SumSavingsUpsert(m: map<string, AnalysisRow>, k: string, row: AnalysisRow)
    ensures SumSavings(m[k := row]) == SumSavings(m - {k}) + row.totalIdentifiedSavings
  {
    SumSavingsRemove(m[k := row], k);
    assert m[k := row] - {k} == m - {k};
  }

  function Restrict(m: map<string, AnalysisRow>, keys: set<string>): map<string, AnalysisRow> {
    map k | k in keys && k in m :: m[k]
  }

  // --- Ordering ---

  /** SQLite's BINARY collation on text: lexicographic by character. */
  predicate LexLe(a: string, b: string)
    decreases |a|
  {
    |a| == 0 || (|b| > 0 && (a[0] < b[0] || (a[0] == b[0] && LexLe(a[1..], b[1..]))))
  }

  lemma {:induction false} LexTotal(a: string, b: string)
    ensures LexLe(a, b) || LexLe(b, a)
    decreases |a|
  {
    if |a| > 0 && |b| > 0 && a[0] == b[0] {
      LexTotal(a[1..], b[1..]);
    }
  }

  lemma {:induction false} LexTrans(a: string, b: string, c: string)
    requires LexLe(a, b) && LexLe(b, c)
    ensures LexLe(a, c)
    decreases |a|
  {
    if |a| > 0 && a[0] == b[0] && b[0] == c[0] {
      LexTrans(a[1..], b[1..], c[1..]);
    }
  }

  /** `ORDER BY createdAt DESC`. */
  predicate NewestFirst(s: seq<Bill>) {
    forall i, j :: 0 <= i < j < |s| ==> LexLe(s[j].createdAt, s[i].createdAt)
  }

  predicate DistinctIds(s: seq<Bill>) {
    forall i, j :: 0 <= i < j < |s| ==> s[i].id != s[j].id
  }

  function Ids(s: seq<Bill>): set<string> {
    set i | 0 <= i < |s| :: s[i].id
  }

  /** Puts a bill into a newest-first list after every bill that is not
      older than it. */
  function {:induction false} InsertByDate(s: seq<Bill>, b: Bill): (r: seq<Bill>)
    requires NewestFirst(s)
    ensures NewestFirst(r)
    ensures exists i :: 0 <= i <= |s| && r == s[..i] + [b] + s[i..]
  {
    if s == [] then
      assert [b] == s[..0] + [b] + s[0..];
      [b]
    else if LexLe(s[0].createdAt, b.createdAt) then
      assert [b] + s == s[..0] + [b] + s[0..];
      forall j | 0 <= j < |s| ensures LexLe(s[j].createdAt, b.createdAt) {
        if j > 0 { LexTrans(s[j].createdAt, s[0].createdAt, b.createdAt); }
      }
      [b] + s
    else
      var rest := InsertByDate(s[1..], b);
      var i :| 0 <= i <= |s[1..]| && rest == s[1..][..i] + [b] + s[1..][i..];
      assert [s[0]] + rest == s[..i + 1] + [b] + s[i + 1..];
      LexTotal(s[0].createdAt, b.createdAt);
      forall j | 0 <= j < |rest| ensures LexLe(rest[j].createdAt, s[0].createdAt) {
        if j < i { assert rest[j] == s[j + 1]; }
        else if j > i { assert rest[j] == s[j]; }
      }
      [s[0]] + rest
  }

  lemma InsertKeepsIds(s: seq<Bill>, b: Bill, i: nat)
    requires i <= |s| && DistinctIds(s) && b.id !in Ids(s)
    ensures Ids(s[..i] + [b] + s[i..]) == Ids(s) + {b.id}
    ensures DistinctIds(s[..i] + [b] + s[i..])
  {
    var r := s[..i] + [b] + s[i..];
    forall j | 0 <= j < |r| ensures (j < i ==> r[j] == s[j]) && (j > i ==> r[j] == s[j - 1]) && (j == i ==> r[j] == b) {
    }
    assert r[i] == b;
    forall x | x in Ids(s) ensures x in Ids(r) {
      var k :| 0 <= k < |s| && s[k].id == x;
      if k < i { assert r[k] == s[k]; } else { assert r[k + 1] == s[k]; }
    }
    forall x | x in Ids(r) ensures x in Ids(s) + {b.id} {
      var k :| 0 <= k < |r| && r[k].id == x;
      if k < i { assert r[k] == s[k]; } else if k > i { assert r[k] == s[k - 1]; }
    }
  }

  /** Every entry of a list is the decoded row stored under its id. */
  predicate FromTable(s: seq<Bill>, table: map<string, BillRow>, c: Codec<seq<LineItem>>) {
    forall i :: 0 <= i < |s| ==> s[i].id in table && s[i] == RowToBill(c, table[s[i].id])
  }

  /** One step of the newest-first listing: a decoded row not listed yet
      goes into its place. */
  lemma ListStep(acc: seq<Bill>, table: map<string, BillRow>, c: Codec<seq<LineItem>>, k: string)
    requires NewestFirst(acc) && DistinctIds(acc) && FromTable(acc, table, c)
    requires k in table && table[k].id == k && k !in Ids(acc)
    ensures var next := InsertByDate(acc, RowToBill(c, table[k]));
      && NewestFirst(next) && DistinctIds(next) && FromTable(next, table, c)
      && Ids(next) == Ids(acc) + {k}
  {
    var b := RowToBill(c, table[k]);
    var next := InsertByDate(acc, b);
    var at :| 0 <= at <= |acc| && next == acc[..at] + [b] + acc[at..];
    InsertKeepsIds(acc, b, at);
    forall j | 0 <= j < |next|
      ensures next[j].id in table && next[j] == RowToBill(c, table[next[j].id])
    {
      if j < at { assert next[j] == acc[j]; }
      else if j > at { assert next[j] == acc[j - 1]; }
    }
  }

  class Database {
    const codecs: Codecs
    var bills: map<string, BillRow>
    var analyses: map<string, AnalysisRow>
    var scripts: map<string, ScriptRow>

    /** Every row sits under its own primary key. */
    predicate Valid()
      reads this
    {
      && (forall k :: k in bills ==> bills[k].id == k)
      && (forall k :: k in analyses ==> analyses[k].billId == k)
      && (forall k :: k in scripts ==> scripts[k].billId == k)
    }

    constructor (codecs: Codecs)
      ensures this.codecs == codecs
      ensures bills == map[] && analyses == map[] && scripts == map[]
      ensures Valid()
    {
      this.codecs := codecs;
      bills, analyses, scripts := map[], map[], map[];
    }

    /** `INSERT OR REPLACE INTO bills`: an upsert keyed by `id`. */
    method SaveBill(bill: Bill, run: DbRun) returns (r: Outcome<Thrown>)
      requires Valid()
      modifies this
      ensures Valid()
      ensures r == Settle(run, 1)
      ensures bills == if r.Pass? then old(bills)[bill.id := BillToRow(codecs.lineItems, bill)] else old(bills)
      ensures analyses == old(analyses) && scripts == old(scripts)
      ensures r.Pass? && Faithful(codecs) ==> GetBill(bill.id) == Some(bill)
      ensures forall id :: id != bill.id ==> GetBill(id) == old(GetBill(id))
    {
      r := Settle(run, 1);
      if r.Pass? {
        bills := bills[bill.id := BillToRow(codecs.lineItems, bill)];
        if Faithful(codecs) {
          assert codecs.lineItems.decode(codecs.lineItems.encode(bill.lineItems)) == Some(bill.lineItems);
        }
      }
    }

    /** `INSERT OR REPLACE INTO analyses`: an upsert keyed by `billId`. */
    method SaveAnalysis(analysis: AnalysisResult, run: DbRun) returns (r: Outcome<Thrown>)
      requires Valid()
      modifies this
      ensures Valid()
      ensures r == Settle(run, 1)
      ensures analyses == if r.Pass? then old(analyses)[analysis.billId := AnalysisToRow(codecs.findings, analysis)] else old(analyses)
      ensures bills == old(bills) && scripts == old(scripts)
      ensures r.Pass? && Faithful(codecs) ==> GetAnalysis(analysis.billId) == Some(analysis)
      ensures forall id :: id != analysis.billId ==> GetAnalysis(id) == old(GetAnalysis(id))
    {
      r := Settle(run, 1);
      if r.Pass? {
        analyses := analyses[analysis.billId := AnalysisToRow(codecs.findings, analysis)];
        if Faithful(codecs) {
          assert codecs.findings.decode(codecs.findings.encode(analysis.findings)) == Some(analysis.findings);
        }
      }
    }

    /** `INSERT OR REPLACE INTO scripts`: an upsert keyed by `billId`. */
    method SaveScript(script: NegotiationScript, run: DbRun) returns (r: Outcome<Thrown>)
      requires Valid()
      modifies this
      ensures Valid()
      ensures r == Settle(run, 1)
      ensures scripts == if r.Pass? then old(scripts)[script.billId := ScriptToRow(codecs, script)] else old(scripts)
      ensures bills == old(bills) && analyses == old(analyses)
      ensures r.Pass? && Faithful(codecs) ==> GetScript(script.billId) == Some(script)
      ensures forall id :: id != script.billId ==> GetScript(id) == old(GetScript(id))
    {
      r := Settle(run, 1);
      if r.Pass? {
        scripts := scripts[script.billId := ScriptToRow(codecs, script)];
        if Faithful(codecs) {
          assert codecs.sections.decode(codecs.sections.encode(script.sections)) == Some(script.sections);
          assert codecs.keyPoints.decode(codecs.keyPoints.encode(script.keyPoints)) == Some(script.keyPoints);
        }
      }
    }

    /** Three deletes in order: the script, the analysis, then the bill. A
        failure part-way leaves the later tables untouched. */
    method DeleteBill(id: string, run: DbRun) returns (r: Outcome<Thrown>)
      requires Valid()
      modifies this
      ensures Valid()
      ensures r == Settle(run, 3)
      ensures scripts == if Completed(run, 0) then old(scripts) - {id} else old(scripts)
      ensures analyses == if Completed(run, 1) then old(analyses) - {id} else old(analyses)
      ensures bills == if Completed(run, 2) then old(bills) - {id} else old(bills)
      ensures r.Pass? ==> GetBill(id).None? && GetAnalysis(id).None? && GetScript(id).None?
    {
      r := Settle(run, 3);
      if Completed(run, 0) {
        scripts := scripts - {id};
      }
      if Completed(run, 1) {
        analyses := analyses - {id};
      }
      if Completed(run, 2) {
        bills := bills - {id};
      }
    }

    /** `SELECT * FROM bills WHERE id = ?`: the stored row, decoded, or null;
        the bill found carries the id asked for. */
    function GetBill(id: string): (r: Option<Bill>)
      reads this
      ensures r.Some? <==> id in bills
      ensures r.Some? ==> r.value == RowToBill(codecs.lineItems, bills[id])
      ensures Valid() && r.Some? ==> r.value.id == id
    {
      Lookup(bills, id, (row: BillRow) => RowToBill(codecs.lineItems, row))
    }

    /** `SELECT * FROM analyses WHERE billId = ?`, decoded, or null. */
    function GetAnalysis(billId: string): (r: Option<AnalysisResult>)
      reads this
      ensures r.Some? <==> billId in analyses
      ensures r.Some? ==> r.value == RowToAnalysis(codecs.findings, analyses[billId])
      ensures Valid() && r.Some? ==> r.value.billId == billId
    {
      Lookup(analyses, billId, (row: AnalysisRow) => RowToAnalysis(codecs.findings, row))
    }

    /** `SELECT * FROM scripts WHERE billId = ?`, decoded, or null. */
    function GetScript(billId: string): (r: Option<NegotiationScript>)
      reads this
      ensures r.Some? <==> billId in scripts
      ensures r.Some? ==> r.value == RowToScript(codecs, scripts[billId])
      ensures Valid() && r.Some? ==> r.value.billId == billId
    {
      Lookup(scripts, billId, (row: ScriptRow) => RowToScript(codecs, row))
    }

    /** `SELECT * FROM bills ORDER BY createdAt DESC`: every stored bill once,
        decoded, newest first. Bills with equal `createdAt` come in an order
        the database does not specify. */
    method GetAllBills(run: DbRun) returns (r: Result<seq<Bill>, Thrown>)
      requires Valid()
      ensures r.Failure? <==> Settle(run, 1).Fail?
      ensures r.Failure? ==> r.error == run.err
      ensures r.Success? ==> && NewestFirst(r.value) && DistinctIds(r.value) && Ids(r.value) == bills.Keys
                             && |r.value| == |bills|
      ensures r.Success? ==> forall i :: 0 <= i < |r.value| ==>
                r.value[i].id in bills && r.value[i] == RowToBill(codecs.lineItems, bills[r.value[i].id])
    {
      if Settle(run, 1).Fail? {
        return Failure(run.err);
      }
      var keys := bills.Keys;
      var acc: seq<Bill> := [];
      while keys != {}
        invariant keys <= bills.Keys
        invariant NewestFirst(acc) && DistinctIds(acc)
        invariant Ids(acc) == bills.Keys - keys
        invariant FromTable(acc, bills, codecs.lineItems)
        decreases keys
      {
        var k :| k in keys;
        ListStep(acc, bills, codecs.lineItems, k);
        acc := InsertByDate(acc, RowToBill(codecs.lineItems, bills[k]));
        keys := keys - {k};
      }
      DistinctIdsCount(acc);
      return Success(acc);
    }

    /** `SELECT SUM(totalIdentifiedSavings) FROM analyses`, 0 when empty. */
    method GetTotalSavings(run: DbRun) returns (r: Result<int, Thrown>)
      ensures r.Failure? <==> Settle(run, 1).Fail?
      ensures r.Failure? ==> r.error == run.err
      ensures r.Success? ==> r.value == SumSavings(analyses)
    {
      if Settle(run, 1).Fail? {
        return Failure(run.err);
      }
      var keys := analyses.Keys;
      var total := 0;
      assert Restrict(analyses, keys) == analyses;
      while keys != {}
        invariant keys <= analyses.Keys
        invariant total + SumSavings(Restrict(analyses, keys)) == SumSavings(analyses)
        decreases keys
      {
        var k :| k in keys;
        SumSavingsRemove(Restrict(analyses, keys), k);
        assert Restrict(analyses, keys) - {k} == Restrict(analyses, keys - {k});
        total := total + analyses[k].totalIdentifiedSavings;
        keys := keys - {k};
      }
      assert Restrict(analyses, keys) == map[];
      return Success(total);
    }

    /** `SELECT COUNT(*) FROM bills`. */
    method GetBillCount(run: DbRun) returns (r: Result<nat, Thrown>)
      ensures r.Failure? <==> Settle(run, 1).Fail?
      ensures r.Failure? ==> r.error == run.err
      ensures r.Success? ==> r.value == |bills|
    {
      if Settle(run, 1).Fail? {
        return Failure(run.err);
      }
      return Success(|bills|);
    }
  }

  /** A list with distinct ids has as many entries as ids. */
  lemma {:induction false} DistinctIdsCount(s: seq<Bill>)
    requires DistinctIds(s)
    ensures |Ids(s)| == |s|
  {
    if s != [] {
      var t := s[..|s| - 1];
      assert DistinctIds(t);
      DistinctIdsCount(t);
      assert Ids(s) == Ids(t) + {s[|s| - 1].id} by {
        forall x | x in Ids(s) ensures x in Ids(t) + {s[|s| - 1].id} {
          var k :| 0 <= k < |s| && s[k].id == x;
          if k < |s| - 1 { assert t[k] == s[k]; }
        }
        forall x | x in Ids(t) ensures x in Ids(s) {
          var k :| 0 <= k < |t| && t[k].id == x;
          assert s[k] == t[k];
        }
      }
      assert s[|s| - 1].id !in Ids(t) by {
        forall k | 0 <= k < |t| ensures t[k].id != s[|s| - 1].id {
          assert t[k] == s[k];
        }
      }
    }
  }
}
