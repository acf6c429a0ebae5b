/** `GoogleSheetsService.fetch_vendors` (src/services/sheets_service.py:21-42):
    the raw rows of the values API turned into a frame whose header is the
    first row, with rows that have no cell at all dropped. */
module SheetsService {
  import opened Wrappers

  /** What `...values().get(...).execute()` did: raised, or returned a
      response whose `values` entry may be absent. */
  datatype ApiOutcome = Raised | Returned(values: Option<seq<seq<string>>>)

  /** A frame row: its index label `index` (its position among the data rows, kept
      by `dropna`) and one cell per column, `None` where the row is short. */
  datatype Record = Record(index: nat, cells: seq<Option<string>>)

  datatype Frame = Frame(columns: seq<string>, records: seq<Record>)

  /** The widest row. */
  function MaxWidth(rows: seq<seq<string>>): (w: nat)
    ensures forall i :: 0 <= i < |rows| ==> |rows[i]| <= w
    ensures rows != [] ==> exists i :: 0 <= i < |rows| && |rows[i]| == w
    ensures rows == [] ==> w == 0
  {
    if rows == [] then 0
    else
      var w := MaxWidth(rows[1..]);
      assert forall i :: 1 <= i < |rows| ==> rows[i] == rows[1..][i - 1];
      if |rows[0]| >= w then |rows[0]| else w
  }

  /** A row filled out with `None` to `width` cells. */
  function Pad(row: seq<string>, width: nat): (r: seq<Option<string>>)
    requires |row| <= width
    ensures |r| == width
    ensures forall j :: 0 <= j < |row| ==> r[j] == Some(row[j])
    ensures forall j :: |row| <= j < width ==> r[j] == None
  {
    seq(width, j requires 0 <= j < width => if j < |row| then Some(row[j]) else None)
  }

  /** `pd.DataFrame(data, columns=columns)`: the rows are padded to the widest
      one, and that width must be the number of columns (else `ValueError`,
      here `None`). No data rows give an empty frame. */
  function ToFrame(columns: seq<string>, data: seq<seq<string>>): (r: Option<Frame>)
    ensures r.Some? ==> r.value.columns == columns && |r.value.records| == |data|
    ensures r.Some? ==> forall i :: 0 <= i < |data| ==>
              |data[i]| <= |columns| && r.value.records[i] == Record(i, Pad(data[i], |columns|))
    ensures r.None? <==> data != [] && MaxWidth(data) != |columns|
  {
    if data == [] then Some(Frame(columns, []))
    else if MaxWidth(data) != |columns| then None
    else
      Some(Frame(columns, seq(|data|, i requires 0 <= i < |data| => Record(i, Pad(data[i], |columns|)))))
  }

  /** No cell of the row is present. */
  predicate AllMissing(cells: seq<Option<string>>) {
    forall j :: 0 <= j < |cells| ==> cells[j].None?
  }

  lemma PadAllMissing(row: seq<string>, width: nat)
    requires |row| <= width
    ensures AllMissing(Pad(row, width)) <==> row == []
  {
    if row != [] {
      assert Pad(row, width)[0] == Some(row[0]);
    }
  }

  /** Labels strictly increase: the frame keeps the sheet's row order. */
  predicate Increasing(records: seq<Record>) {
    forall i, j :: 0 <= i < j < |records| ==> records[i].index < records[j].index
  }

  /** `dropna(how='all')`: the records with at least one present cell, in
      their original order. */
  function DropAllMissing(records: seq<Record>): (r: seq<Record>)
    ensures |r| <= |records|
    ensures forall x :: x in r ==> x in records && !AllMissing(x.cells)
  {
    if records == [] then []
    else
      var rest := DropAllMissing(records[1..]);
      if AllMissing(records[0].cells) then rest else [records[0]] + rest
  }

  /** Every record with a present cell survives `dropna`. */
  lemma {:induction false} DropKeeps(records: seq<Record>, x: Record)
    requires x in records && !AllMissing(x.cells)
    ensures x in DropAllMissing(records)
  {
    if x != records[0] {
      DropKeeps(records[1..], x);
    }
  }

  /** `dropna` keeps the records' order. */
  lemma {:induction false} DropKeepsOrder(records: seq<Record>)
    requires Increasing(records)
    ensures Increasing(DropAllMissing(records))
  {
    if records != [] {
      var rest := DropAllMissing(records[1..]);
      assert Increasing(records[1..]);
      DropKeepsOrder(records[1..]);
      if !AllMissing(records[0].cells) {
        forall j | 0 <= j < |rest| ensures records[0].index < rest[j].index {
          assert rest[j] in records[1..];
        }
      }
    }
  }

  /** `fetch_vendors()`: an exception never escapes. The result is `None`
      exactly on an exception, on an absent or empty `values`, and when the
      rows do not fit the header; otherwise the columns are the first row. */
  function FetchVendors(outcome: ApiOutcome): (r: Option<Frame>)
    ensures r.None? <==>
            outcome.Raised? ||
            ValuesOf(outcome) == [] ||
            (|ValuesOf(outcome)| > 1 && MaxWidth(ValuesOf(outcome)[1..]) != |ValuesOf(outcome)[0]|)
    ensures r.Some? ==> outcome.Returned? && ValuesOf(outcome) != [] &&
                        r.value.columns == ValuesOf(outcome)[0]
  {
    match outcome
    case Raised => None
    case Returned(_) =>
      var values := ValuesOf(outcome);
      if values == [] then None
      else
        match ToFrame(values[0], values[1..])
        case None => None
        case Some(frame) => Some(Frame(frame.columns, DropAllMissing(frame.records)))
  }

  /** The values the call saw: `result.get('values', [])`. */
  function ValuesOf(outcome: ApiOutcome): seq<seq<string>>
    requires outcome.Returned?
  {
    if outcome.values.Some? then outcome.values.value else []
  }

  /** On success the columns are exactly the first row, and each record is
      data row `index` (sheet row `index + 2`) padded to the header, in sheet
      order, at most one per data row. */
  lemma FetchShape(outcome: ApiOutcome)
    requires FetchVendors(outcome).Some?
    ensures outcome.Returned? && ValuesOf(outcome) != []
    ensures var values := ValuesOf(outcome);
            var f := FetchVendors(outcome).value;
            f.columns == values[0] &&
            |f.records| <= |values| - 1 &&
            Increasing(f.records) &&
            forall k :: 0 <= k < |f.records| ==>
              f.records[k].index < |values| - 1 &&
              |values[f.records[k].index + 1]| <= |values[0]| &&
              f.records[k].cells == Pad(values[f.records[k].index + 1], |values[0]|)
  {
    var values := ValuesOf(outcome);
    var frame := ToFrame(values[0], values[1..]).value;
    assert Increasing(frame.records);
    DropKeepsOrder(frame.records);
    var f := FetchVendors(outcome).value;
    forall k | 0 <= k < |f.records|
      ensures f.records[k].index < |values| - 1
      ensures |values[f.records[k].index + 1]| <= |values[0]|
      ensures f.records[k].cells == Pad(values[f.records[k].index + 1], |values[0]|)
    {
      assert f.records[k] in frame.records;
      var i :| 0 <= i < |frame.records| && frame.records[i] == f.records[k];
      assert values[1..][i] == values[i + 1];
    }
  }

  /** On success, data row `i` is kept exactly when it has a cell: rows whose
      cells are all missing are the only ones dropped. */
  lemma FetchKeepsNonEmptyRows(outcome: ApiOutcome, i: nat)
    requires FetchVendors(outcome).Some?
    requires outcome.Returned? && i < |ValuesOf(outcome)| - 1
    ensures (exists k :: 0 <= k < |FetchVendors(outcome).value.records| &&
                         FetchVendors(outcome).value.records[k].index == i)
            <==> ValuesOf(outcome)[i + 1] != []
  {
    var values := ValuesOf(outcome);
    var frame := ToFrame(values[0], values[1..]).value;
    assert values[1..][i] == values[i + 1];
    PadAllMissing(values[i + 1], |values[0]|);
    KeptIff(frame.records, i);
  }

  /** In the records of a fresh frame, label `i` survives `dropna` exactly
      when record `i` has a present cell. */
  lemma KeptIff(records: seq<Record>, i: nat)
    requires i < |records| && forall j :: 0 <= j < |records| ==> records[j].index == j
    ensures (exists k :: 0 <= k < |DropAllMissing(records)| && DropAllMissing(records)[k].index == i)
            <==> !AllMissing(records[i].cells)
  {
    var kept := DropAllMissing(records);
    if !AllMissing(records[i].cells) {
      DropKeeps(records, records[i]);
      var k :| 0 <= k < |kept| && kept[k] == records[i];
    }
    if exists k :: 0 <= k < |kept| && kept[k].index == i {
      var k :| 0 <= k < |kept| && kept[k].index == i;
      assert kept[k] in records;
    }
  }

  /** The store with the row `["A", "x", "...", "Active"]` and an empty row
      under a four-column header reads as that one record. */
  lemma EmptyRowDropped(header: seq<string>)
    requires |header| == 4
    ensures FetchVendors(Returned(Some([header, ["A", "x", "...", "Active"], []])))
            == Some(Frame(header, [Record(0, [Some("A"), Some("x"), Some("..."), Some("Active")])]))
  {
    var row := ["A", "x", "...", "Active"];
    var values := [header, row, []];
    assert values[1..] == [row, []];
    assert MaxWidth([row, []]) == 4;
    var frame := ToFrame(header, [row, []]).value;
    var r0 := Record(0, Pad(row, 4));
    var r1 := Record(1, Pad([], 4));
    assert frame.records == [r0, r1];
    PadAllMissing([], 4);
    PadAllMissing(row, 4);
    assert frame.records[1..] == [r1];
    assert [r1][1..] == [];
    assert DropAllMissing(frame.records) == [r0];
    assert Pad(row, 4) == [Some("A"), Some("x"), Some("..."), Some("Active")];
  }
}
