/**
 * `extract_tenant_info`: the tenant rows of the first table of the sale-object
 * specification page (매각물건명세서).
 *
 * The parsed page is abstracted as its first table, if any, given as the
 * sequence of its rows, each row the sequence of the trimmed texts of its
 * `td` cells.
 */
module TenantExtraction {
  import opened Wrappers

  type Row = seq<string>

  /** `None` when the page has no table at all. */
  type Table = Option<seq<Row>>

  /** One record, its fields in the order 임차인, 전입일자, 확정일자, 보증금, 배당요구. */
  datatype TenantRecord = TenantRecord(
    tenant: string,       // 임차인
    moveInDate: string,   // 전입일자
    fixedDate: string,    // 확정일자
    deposit: string,      // 보증금
    claimStatus: string)  // 배당요구

  /** Rows with at least five cells are the ones that yield a record. */
  predicate Kept(row: Row) {
    |row| >= 5
  }

  /** The fields of a record, in key order. */
  function Fields(t: TenantRecord): seq<string> {
    [t.tenant, t.moveInDate, t.fixedDate, t.deposit, t.claimStatus]
  }

  /** The record built from the first five cells, in key order; further cells are ignored. */
  function RecordOf(row: Row): (r: TenantRecord)
    requires Kept(row)
    ensures Fields(r) == row[..5]
  {
    TenantRecord(row[0], row[1], row[2], row[3], row[4])
  }

  /** Cells beyond the fifth never reach the record. */
  lemma ExtraCellsIgnored(row: Row, extra: Row)
    requires Kept(row)
    ensures RecordOf(row + extra) == RecordOf(row)
    ensures RecordOf(row) == RecordOf(row[..5])
  {
  }

  /** The records of a sequence of data rows, in row order (the specification of the loop). */
  function Records(rows: seq<Row>): seq<TenantRecord>
  {
    if rows == [] then []
    else
      var last := rows[|rows| - 1];
      Records(rows[..|rows| - 1]) + (if Kept(last) then [RecordOf(last)] else [])
  }

  /** The rows after the header row; `[1:]` of an empty list is empty. */
  function DataRows(rows: seq<Row>): (r: seq<Row>)
    ensures |r| == if |rows| == 0 then 0 else |rows| - 1
    ensures forall i :: 0 <= i < |r| ==> r[i] == rows[i + 1]
  {
    if rows == [] then [] else rows[1..]
  }

  /**
   * What `extract_tenant_info` puts under 세입자정보, as a function of the table:
   * nothing without a table, and with one at most max(0, rows - 1) records,
   * since the header row never contributes.
   */
  function TenantInfo(table: Table): (r: seq<TenantRecord>)
    ensures table == None ==> r == []
    ensures table.Some? ==> |r| <= if |table.value| == 0 then 0 else |table.value| - 1
  {
    match table
    case None => []
    case Some(rows) =>
      RecordsBound(DataRows(rows));
      Records(DataRows(rows))
  }

  /** The `for` loop of `extract_tenant_info`, appending one record per kept row. */
  method ExtractTenantInfo(table: Table) returns (records: seq<TenantRecord>)
    ensures records == TenantInfo(table)
  {
    records := [];
    if table.Some? {
      var rows := DataRows(table.value);
      var i := 0;
      while i < |rows|
        invariant 0 <= i <= |rows|
        invariant records == Records(rows[..i])
      {
        var cols := rows[i];
        if |cols| >= 5 {
          records := records + [TenantRecord(cols[0], cols[1], cols[2], cols[3], cols[4])];
        }
        assert rows[..i + 1][..i] == rows[..i];
        i := i + 1;
      }
      assert rows[..i] == rows;
    }
  }

  /** The positions of the kept rows, in increasing order. */
  function KeptPositions(rows: seq<Row>): (ps: seq<nat>)
    ensures forall k :: 0 <= k < |ps| ==> ps[k] < |rows| && Kept(rows[ps[k]])
    ensures forall k, l :: 0 <= k < l < |ps| ==> ps[k] < ps[l]
    ensures forall i :: 0 <= i < |rows| && Kept(rows[i]) ==> i in ps
  {
    if rows == [] then []
    else
      var n := |rows| - 1;
      var init := rows[..n];
      var ps := KeptPositions(init);
      assert forall i :: 0 <= i < n ==> init[i] == rows[i];
      if Kept(rows[n]) then ps + [n] else ps
  }

  /**
   * The records are exactly the kept rows, in row order: the k-th record is
   * built from the k-th row with at least five cells, and there is one record
   * per such row.
   */
  lemma {:induction false} RecordsAreKeptRows(rows: seq<Row>)
    ensures |Records(rows)| == |KeptPositions(rows)|
    ensures forall k :: 0 <= k < |Records(rows)| ==>
      Records(rows)[k] == RecordOf(rows[KeptPositions(rows)[k]])
  {
    if rows != [] {
      var n := |rows| - 1;
      var init := rows[..n];
      RecordsAreKeptRows(init);
      var rs, ps := Records(init), KeptPositions(init);
      var tail := if Kept(rows[n]) then [RecordOf(rows[n])] else [];
      assert Records(rows) == rs + tail;
      assert KeptPositions(rows) == if Kept(rows[n]) then ps + [n] else ps;
      forall k | 0 <= k < |rs|
        ensures Records(rows)[k] == RecordOf(rows[KeptPositions(rows)[k]])
      {
        assert Records(rows)[k] == rs[k];
        assert KeptPositions(rows)[k] == ps[k];
        assert init[ps[k]] == rows[ps[k]];
      }
      if Kept(rows[n]) {
        assert Records(rows)[|rs|] == RecordOf(rows[KeptPositions(rows)[|rs|]]);
      }
    }
  }

  /** No more records than data rows. */
  lemma {:induction false} RecordsBound(rows: seq<Row>)
    ensures |Records(rows)| <= |rows|
  {
    if rows != [] {
      RecordsBound(rows[..|rows| - 1]);
    }
  }

  /** Every row kept: one record per row. No row kept: no record. */
  lemma {:induction false} RecordsExtremes(rows: seq<Row>)
    ensures (forall i :: 0 <= i < |rows| ==> Kept(rows[i])) ==> |Records(rows)| == |rows|
    ensures (forall i :: 0 <= i < |rows| ==> !Kept(rows[i])) ==> Records(rows) == []
  {
    if rows != [] {
      RecordsExtremes(rows[..|rows| - 1]);
    }
  }

  /** Records of consecutive stretches of rows concatenate. */
  lemma {:induction false} RecordsConcat(a: seq<Row>, b: seq<Row>)
    ensures Records(a + b) == Records(a) + Records(b)
    decreases |b|
  {
    if b == [] {
      assert a + b == a;
    } else {
      var n := |b| - 1;
      assert (a + b)[..|a + b| - 1] == a + b[..n];
      RecordsConcat(a, b[..n]);
    }
  }

  /** With a table, the records are those of the rows after the header. */
  lemma TenantInfoSkipsHeader(rows: seq<Row>)
    requires |rows| >= 1
    ensures TenantInfo(Some(rows)) == Records(rows[1..])
  {
  }

  /** Changing the header row never changes the result. */
  lemma HeaderIgnored(header: Row, header': Row, rows: seq<Row>)
    ensures TenantInfo(Some([header] + rows)) == TenantInfo(Some([header'] + rows))
  {
  }

  /**
   * Example: a header row and two data rows, the first with only four cells,
   * give exactly one record, that of the five-cell row.
   */
  lemma ShortRowDropped(header: Row, short: Row, full: Row)
    requires |short| == 4 && |full| == 5
    ensures TenantInfo(Some([header, short, full])) == [RecordOf(full)]
  {
    var rows := [short, full];
    assert [header, short, full][1..] == rows;
    assert rows[..1] == [short];
    assert Records(rows) == Records([short]) + [RecordOf(full)];
    assert [short][..0] == [];
    assert Records([short]) == Records([]) + [];
  }
}
