/**
 * `main` (src/main.rs:83-101): the status-code map is laid out as a text
 * table with a "Code" / "Description" header and one row per map entry, in
 * the map's iteration order. Only the table's cell texts are modelled.
 */
module Render {
  import opened Decimal
  import opened OrderedMap
  import opened StatusCodes

  /** The texts of the cells of one table line, left to right. */
  type Row = seq<string>

  /** The header line set at src/main.rs:88-91. */
  const Header: Row := ["Code", "Description"]

  /** A table under construction: its header line and its body rows in insertion order. */
  class TextTable {
    var header: Row
    var rows: seq<Row>

    /** `Table::new`: no header and no rows yet. */
    constructor ()
      ensures header == [] && rows == []
    {
      header := [];
      rows := [];
    }

    /** `Table::set_header`: replaces the header line, leaves the rows alone. */
    method SetHeader(cells: Row)
      modifies this
      ensures header == cells && rows == old(rows)
    {
      header := cells;
    }

    /** `Table::add_row`: appends one row below the existing ones. */
    method AddRow(cells: Row)
      modifies this
      ensures rows == old(rows) + [cells] && header == old(header)
    {
      rows := rows + [cells];
    }
  }

  /**
   * The row for one map entry (src/main.rs:94-97): two cells, the code's
   * decimal digits, which read back as the code, then its reason phrase.
   */
  function EntryRow(e: Entry): (r: Row)
    ensures |r| == 2 && AllDigits(r[0]) && r[1] == e.reason
    ensures ParseDecimal(r[0]) == e.code
  {
    ParseToDecimal(e.code);
    [ToDecimal(e.code), e.reason]
  }

  /** The body rows for a map iterated in the order of `s`. */
  function Rows(s: seq<Entry>): seq<Row> {
    seq(|s|, i requires 0 <= i < |s| => EntryRow(s[i]))
  }

  /**
   * The table-building part of `main` (src/main.rs:86-98): a new table gets
   * the header, then one row per entry of `codes`, visited in ascending code
   * order, each row holding the code's decimal text and its reason phrase.
   */
  method RenderTable(codes: CodeMap) returns (table: TextTable)
    ensures fresh(table)
    ensures table.header == Header && table.rows == Rows(codes.entries)
  {
    table := new TextTable();
    table.SetHeader(Header);
    var entries := codes.entries;
    for k := 0 to |entries|
      invariant table.header == Header && table.rows == Rows(entries[..k])
    {
      var e := entries[k];
      table.AddRow([ToDecimal(e.code), e.reason]);
      assert Rows(entries[..k + 1]) == Rows(entries[..k]) + [EntryRow(e)];
    }
    assert entries[..|entries|] == entries;
  }

  /**
   * `main` up to the printing (src/main.rs:84-98): the table that `main`
   * prints has the header and one row per entry of the map built by
   * `get_status_codes`, whose codes, read back, strictly ascend.
   */
  method ShowStatusCodes() returns (table: TextTable)
    ensures fresh(table)
    ensures table.header == Header && table.rows == Rows(StatusTable) && |table.rows| == 62
    ensures forall i :: 0 <= i < |table.rows| ==> |table.rows[i]| == 2 && AllDigits(table.rows[i][0])
    ensures forall i, j :: 0 <= i < j < |table.rows| ==>
              ParseDecimal(table.rows[i][0]) < ParseDecimal(table.rows[j][0])
  {
    var codes := BuildStatusCodes();
    table := RenderTable(codes);
    StatusTableAscending();
    RowsInCodeOrder(StatusTable);
  }

  // ----- What the rows say -----

  /** Iterating an ascending map gives rows whose codes, read back, strictly increase. */
  lemma RowsInCodeOrder(s: seq<Entry>)
    requires Ascending(s)
    ensures |Rows(s)| == |s|
    ensures forall i :: 0 <= i < |s| ==> AllDigits(Rows(s)[i][0])
    ensures forall i, j :: 0 <= i < j < |s| ==> ParseDecimal(Rows(s)[i][0]) < ParseDecimal(Rows(s)[j][0])
  {
    forall i | 0 <= i < |s|
      ensures AllDigits(Rows(s)[i][0]) && ParseDecimal(Rows(s)[i][0]) == s[i].code
    {
      assert Rows(s)[i] == EntryRow(s[i]);
    }
  }

  /**
   * The rows say exactly what the map says: a row [decimal text of `code`,
   * `reason`] is present if and only if `code` maps to `reason`.
   */
  lemma RowsCarryMap(s: seq<Entry>, code: U16, reason: string)
    requires Ascending(s)
    ensures [ToDecimal(code), reason] in Rows(s) <==> Lookup(s, code) == Some(reason)
  {
    var row: Row := [ToDecimal(code), reason];
    if row in Rows(s) {
      var i :| 0 <= i < |s| && Rows(s)[i] == row;
      ToDecimalInjective(s[i].code, code);
      LookupAt(s, i);
    }
    if Lookup(s, code) == Some(reason) {
      LookupSpec(s, code);
      var i :| 0 <= i < |s| && s[i] == Entry(code, reason);
      assert Rows(s)[i] == row;
    }
  }

  /**
   * Every row of the status table starts with exactly three digits, the first
   * being the code's class, and the text reads back as the code.
   */
  lemma StatusRowsThreeDigits()
    ensures |Rows(StatusTable)| == 62
    ensures forall i :: 0 <= i < 62 ==>
              |Rows(StatusTable)[i][0]| == 3 &&
              DigitValue(Rows(StatusTable)[i][0][0]) == StatusTable[i].code / 100 &&
              ParseDecimal(Rows(StatusTable)[i][0]) == StatusTable[i].code
  {
    StatusTableWellFormed();
    forall i | 0 <= i < 62
      ensures |Rows(StatusTable)[i][0]| == 3
      ensures DigitValue(Rows(StatusTable)[i][0][0]) == StatusTable[i].code / 100
      ensures ParseDecimal(Rows(StatusTable)[i][0]) == StatusTable[i].code
    {
      ThreeDigits(StatusTable[i].code);
      assert Rows(StatusTable)[i] == EntryRow(StatusTable[i]);
    }
  }
}
