/** The worksheet behind `add_data`, `update_data` and `delete_data`
    (streamlit_app.py:98-106): row 1 is the header, data row `i` (0-based)
    is sheet row `i + 2`. */
module VendorStore {
  import opened Wrappers
  import opened FormSchema
  import opened Search
  import Render

  type Row = Render.Row

  /** `delete_rows(n)` on the rows of a sheet, `n` counted from 1. */
  function DeleteRowAt(rows: seq<Row>, n: nat): (r: seq<Row>)
    requires 1 <= n <= |rows|
    ensures |r| == |rows| - 1
    ensures forall i :: 0 <= i < n - 1 ==> r[i] == rows[i]
    ensures forall i :: n - 1 <= i < |r| ==> r[i] == rows[i + 1]
  {
    rows[..n - 1] + rows[n..]
  }

  /** `insert_row(row, n)`: `row` becomes sheet row `n`, later rows move down. */
  function InsertRowAt(rows: seq<Row>, row: Row, n: nat): (r: seq<Row>)
    requires 1 <= n <= |rows| + 1
    ensures |r| == |rows| + 1 && r[n - 1] == row
    ensures forall i :: 0 <= i < n - 1 ==> r[i] == rows[i]
    ensures forall i :: n <= i < |r| ==> r[i] == rows[i - 1]
  {
    rows[..n - 1] + [row] + rows[n - 1..]
  }

  /** Deleting a row and inserting at the same place replaces that row. */
  lemma DeleteThenInsert(rows: seq<Row>, row: Row, n: nat)
    requires 1 <= n <= |rows|
    ensures InsertRowAt(DeleteRowAt(rows, n), row, n) == rows[n - 1 := row]
  {
    var r := InsertRowAt(DeleteRowAt(rows, n), row, n);
    assert forall i :: 0 <= i < |rows| ==> r[i] == rows[n - 1 := row][i];
  }

  /** A worksheet: `rows[k]` is sheet row `k + 1`. */
  class Sheet {
    var rows: seq<Row>

    /** The sheet keeps its header row. */
    ghost predicate Valid()
      reads this
    {
      |rows| >= 1
    }

    function Header(): Row
      reads this
      requires Valid()
    {
      rows[0]
    }

    /** The data rows, in sheet order; data row `i` is sheet row `i + 2`,
        that is `rows[i + 1]`. */
    function DataRows(): (data: seq<Row>)
      reads this
      requires Valid()
      ensures |data| == |rows| - 1
      ensures forall i :: 0 <= i < |data| ==> data[i] == rows[i + 1]
    {
      rows[1..]
    }

    constructor (header: Row, data: seq<Row>)
      ensures Valid() && Header() == header && DataRows() == data
    {
      rows := [header] + data;
    }

    /** The records `get_all_records` reads, in sheet order. */
    method ReadData() returns (data: seq<Row>)
      requires Valid()
      ensures data == DataRows()
    {
      data := rows[1..];
    }

    /** `add_data(row)`: `append_row` puts `row` after the last data row. */
    method AddData(row: Row)
      requires Valid()
      modifies this
      ensures Valid() && Header() == old(Header())
      ensures DataRows() == old(DataRows()) + [row]
    {
      rows := rows + [row];
    }

    /** `update_data(index, row)`: delete sheet row `index + 2`, then insert
        `row` there. A position past the last data row is the API's error
        (`ok` false), and the sheet is left as it was. */
    method UpdateData(index: nat, row: Row) returns (ok: bool)
      requires Valid()
      modifies this
      ensures Valid() && Header() == old(Header())
      ensures ok <==> index < |old(DataRows())|
      ensures ok ==> DataRows() == old(DataRows())[index := row]
      ensures !ok ==> rows == old(rows)
    {
      var n := index + 2;
      if n > |rows| {
        return false;
      }
      ghost var before := rows;
      rows := DeleteRowAt(rows, n);
      rows := InsertRowAt(rows, row, n);
      DeleteThenInsert(before, row, n);
      assert rows[1..] == before[1..][index := row];
      return true;
    }

    /** `delete_data(index)`: delete sheet row `index + 2`; the other data rows
        keep their order. */
    method DeleteData(index: nat) returns (ok: bool)
      requires Valid()
      modifies this
      ensures Valid() && Header() == old(Header())
      ensures ok <==> index < |old(DataRows())|
      ensures ok ==> DataRows() == old(DataRows())[..index] + old(DataRows())[index + 1..]
      ensures !ok ==> rows == old(rows)
    {
      var n := index + 2;
      if n > |rows| {
        return false;
      }
      ghost var before := rows;
      rows := DeleteRowAt(rows, n);
      assert rows[1..] == before[1..][..index] + before[1..][index + 1..];
      return true;
    }
  }

  /** `df[name]` of the frame read from the sheet: the cells under the first
      header cell holding `name`, a short row giving `""` as
      `get_all_records` does; `None` is the `KeyError`. A sheet with no data
      rows gives no records, and a frame built from no records has no
      columns at all, so its column lookup raises too. */
  function Column(header: Row, data: seq<Row>, name: string): (r: Option<seq<Value>>)
    ensures r.None? <==> data == [] || Text(name) !in header
    ensures r.Some? ==> |r.value| == |data|
    ensures r.Some? ==> forall i :: 0 <= i < |data| ==>
              var j := FirstIndex(header, Text(name)).value;
              r.value[i] == if j < |data[i]| then data[i][j] else Text("")
  {
    if data == [] then None
    else
      match FirstIndex(header, Text(name))
      case None => None
      case Some(j) => Some(seq(|data|, i requires 0 <= i < |data| => if j < |data[i]| then data[i][j] else Text("")))
  }

  /** `df[df["Company Name"] == vendor].index[0]`: the data position of the
      first vendor of that name; `None` where `.index[0]` raises. */
  function VendorIndex(header: Row, data: seq<Row>, vendor: Value): (r: Option<nat>)
    ensures r.Some? ==> Column(header, data, "Company Name").Some?
    ensures r.Some? ==> r.value < |data| && Column(header, data, "Company Name").value[r.value] == vendor
    ensures r.Some? ==> forall i :: 0 <= i < r.value ==> Column(header, data, "Company Name").value[i] != vendor
    ensures r.None? <==> Column(header, data, "Company Name").None? || vendor !in Column(header, data, "Company Name").value
  {
    match Column(header, data, "Company Name")
    case None => None
    case Some(names) => FirstIndex(names, vendor)
  }

  /** A vendor picked from the Company Name column is always found, at a
      position `update_data` and `delete_data` accept. */
  lemma PickedVendorFound(sheet: Sheet, k: nat)
    requires sheet.Valid()
    requires Column(sheet.Header(), sheet.DataRows(), "Company Name").Some?
    requires k < |sheet.DataRows()|
    ensures var names := Column(sheet.Header(), sheet.DataRows(), "Company Name").value;
            var r := VendorIndex(sheet.Header(), sheet.DataRows(), names[k]);
            r.Some? && r.value <= k && r.value < |sheet.DataRows()|
  {
    var names := Column(sheet.Header(), sheet.DataRows(), "Company Name").value;
    assert names[k] in names;
  }

  /** The single-vendor scenarios: an update replaces the only row; a delete
      leaves no data rows; an add appends after the last row. */
  method SingleVendorScenario(header: Row, vendor: Row, edited: Row, other: Row)
  {
    var sheet := new Sheet(header, [vendor]);
    var ok := sheet.UpdateData(0, edited);
    assert ok && sheet.DataRows() == [edited];
    var data := sheet.ReadData();
    assert data == [edited];
    ok := sheet.UpdateData(1, other);
    assert !ok && sheet.DataRows() == [edited];
    sheet.AddData(other);
    assert sheet.DataRows() == [edited, other];
    ok := sheet.DeleteData(0);
    assert ok && sheet.DataRows() == [other];
    ok := sheet.DeleteData(0);
    assert ok && sheet.DataRows() == [];
    assert sheet.Header() == header;
    // with no data rows left, the pages that look a vendor up raise
    assert Column(sheet.Header(), sheet.DataRows(), "Company Name").None?;
  }
}
