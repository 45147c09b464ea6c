/** Assembly of the extracted document: one entry per worksheet in `sheets`,
    a parallel entry in `summary.sheet_info`, and the sheet count. */
module Extraction {
  import opened Cells
  import opened Sheets

  /** An element of `sheets`: name, rows of cells, row count, column count. */
  datatype SheetEntry = SheetEntry(name: string, data: Grid, rows: nat, columns: nat)

  /** An element of `summary.sheet_info`. */
  datatype SheetInfo = SheetInfo(name: string, rows: nat, columns: nat)

  datatype Summary = Summary(totalSheets: nat, sheetInfo: seq<SheetInfo>)

  /** The document returned by the extraction, ready to be written as JSON. */
  datatype Document = Document(sheets: seq<SheetEntry>, summary: Summary)

  /** The document before any sheet is processed. */
  function Initial(): (d: Document)
    ensures d.sheets == [] && d.summary.sheetInfo == [] && d.summary.totalSheets == 0
  {
    Document([], Summary(0, []))
  }

  function InfoOf(e: SheetEntry): SheetInfo
  {
    SheetInfo(e.name, e.rows, e.columns)
  }

  /** An entry's counts match its data: `rows` rows, each of `columns` cells. */
  predicate WellShaped(e: SheetEntry)
  {
    e.rows == |e.data| && forall r :: 0 <= r < |e.data| ==> |e.data[r]| == e.columns
  }

  /** The entry recorded for the sheet called `name`: its flattened used
      range, the number of rows produced and the reported column count. */
  function Entry<O>(wb: Workbook<O>, name: string, str: O -> string): (e: SheetEntry)
    requires name in SheetNames(wb)
    ensures e.name == name
    ensures e.data == Flatten(Lookup(wb, name), str)
    ensures e.rows == |e.data| == Lookup(wb, name).maxRow
    ensures e.columns == Lookup(wb, name).maxCol
    ensures WellShaped(e)
  {
    var ws := Lookup(wb, name);
    var data := Flatten(ws, str);
    SheetEntry(name, data, |data|, ws.maxCol)
  }

  /** The entries of all sheets, in the order of the sheet names. */
  function Entries<O>(wb: Workbook<O>, str: O -> string): (es: seq<SheetEntry>)
    ensures |es| == |wb.worksheets|
    ensures forall k :: 0 <= k < |es| ==> es[k] == Entry(wb, SheetNames(wb)[k], str)
  {
    seq(|wb.worksheets|, k requires 0 <= k < |wb.worksheets| => Entry(wb, SheetNames(wb)[k], str))
  }

  /** The document after the sheets of `entries` are processed in order:
      each step appends one entry to `sheets` and one to `summary.sheet_info`
      and leaves `total_sheets` alone. */
  function Assemble(entries: seq<SheetEntry>): Document
  {
    if entries == [] then Initial()
    else
      var d := Assemble(entries[..|entries| - 1]);
      var e := entries[|entries| - 1];
      Document(d.sheets + [e], d.summary.(sheetInfo := d.summary.sheetInfo + [InfoOf(e)]))
  }

  /** Processing one more sheet appends exactly one entry to `sheets` and one
      to `sheet_info`, and touches nothing else. */
  lemma AssembleAppend(entries: seq<SheetEntry>, e: SheetEntry)
    ensures var d, d' := Assemble(entries), Assemble(entries + [e]);
      && d'.sheets == d.sheets + [e]
      && d'.summary.sheetInfo == d.summary.sheetInfo + [InfoOf(e)]
      && d'.summary.totalSheets == d.summary.totalSheets
  {
    assert (entries + [e])[..|entries|] == entries;
  }

  /** The finished document: every sheet processed, then the sheet count set. */
  function Extract<O>(wb: Workbook<O>, str: O -> string): Document
  {
    var d := Assemble(Entries(wb, str));
    d.(summary := d.summary.(totalSheets := |SheetNames(wb)|))
  }

  /** The document's own consistency: the summary mirrors `sheets` entry by
      entry and counts them, and every entry's counts match its data. */
  predicate Consistent(d: Document)
  {
    && d.summary.totalSheets == |d.sheets| == |d.summary.sheetInfo|
    && (forall k :: 0 <= k < |d.sheets| ==> d.summary.sheetInfo[k] == InfoOf(d.sheets[k]))
    && (forall k :: 0 <= k < |d.sheets| ==> WellShaped(d.sheets[k]))
  }

  /** Processing a list of entries records exactly those entries, in order,
      in `sheets`; `sheet_info` holds their names and counts in the same
      order; the sheet count is still 0. */
  lemma {:induction false} AssembleRecords(entries: seq<SheetEntry>)
    ensures var d := Assemble(entries);
      && d.sheets == entries
      && |d.summary.sheetInfo| == |entries|
      && (forall k :: 0 <= k < |entries| ==> d.summary.sheetInfo[k] == InfoOf(entries[k]))
      && d.summary.totalSheets == 0
  {
    if entries != [] {
      AssembleRecords(entries[..|entries| - 1]);
    }
  }

  /** The finished document is consistent. */
  lemma ExtractConsistent<O>(wb: Workbook<O>, str: O -> string)
    ensures Consistent(Extract(wb, str))
  {
    AssembleRecords(Entries(wb, str));
  }

  /** Sheets appear in the workbook's order, each once, with nothing dropped
      or added, and each entry holds the flattened sheet of that name. */
  lemma ExtractOrder<O>(wb: Workbook<O>, str: O -> string)
    ensures var d := Extract(wb, str);
      && |d.sheets| == |SheetNames(wb)| == d.summary.totalSheets
      && (forall k :: 0 <= k < |d.sheets| ==> d.sheets[k].name == SheetNames(wb)[k])
      && (forall k :: 0 <= k < |d.sheets| ==> d.sheets[k].data == Flatten(Lookup(wb, SheetNames(wb)[k]), str))
  {
    AssembleRecords(Entries(wb, str));
  }

  /** With distinct titles (as a workbook has them), the k-th entry is the
      k-th worksheet flattened, with its used range as row and column counts. */
  lemma ExtractSheetByPosition<O>(wb: Workbook<O>, str: O -> string, k: nat)
    requires DistinctTitles(wb) && k < |wb.worksheets|
    ensures |Extract(wb, str).sheets| == |wb.worksheets|
    ensures var e := Extract(wb, str).sheets[k];
      && e.name == wb.worksheets[k].title
      && e.data == Flatten(wb.worksheets[k], str)
      && e.rows == wb.worksheets[k].maxRow
      && e.columns == wb.worksheets[k].maxCol
  {
    AssembleRecords(Entries(wb, str));
    LookupByTitle(wb, k);
  }

  /** Extracts the document from a loaded workbook: for each sheet name in
      order, flattens the sheet and appends its entry to `sheets` and its
      counts to `summary.sheet_info`; finally sets the sheet count. */
  method ExtractWorkbookData<O>(wb: Workbook<O>, str: O -> string) returns (doc: Document)
    ensures doc == Extract(wb, str)
    ensures Consistent(doc)
    ensures doc.summary.totalSheets == |wb.worksheets|
    ensures forall k :: 0 <= k < |doc.sheets| ==> doc.sheets[k].name == wb.worksheets[k].title
  {
    var names := SheetNames(wb);
    ghost var entries := Entries(wb, str);
    var sheets: seq<SheetEntry> := [];
    var summary := Summary(0, []);
    for i := 0 to |names|
      invariant Document(sheets, summary) == Assemble(entries[..i])
    {
      var name := names[i];
      var ws := Lookup(wb, name);
      var data := FlattenSheet(ws, str);
      assert entries[..i + 1][..i] == entries[..i];
      sheets := sheets + [SheetEntry(name, data, |data|, ws.maxCol)];
      summary := summary.(sheetInfo := summary.sheetInfo + [SheetInfo(name, |data|, ws.maxCol)]);
    }
    assert entries[..|names|] == entries;
    summary := summary.(totalSheets := |names|);
    doc := Document(sheets, summary);
    ExtractConsistent(wb, str);
    ExtractOrder(wb, str);
  }

  /** A workbook with a 2-by-3 sheet "Summary" holding 1, "a", "" / 2, "b",
      None and a 0-by-0 sheet "Empty" gives this document. */
  lemma {:induction false} ExampleTwoSheets<O>(str: O -> string)
    ensures
      var summarySheet := Worksheet("Summary", 2, 3,
        map[(1, 1) := Numeric(Int(1)), (1, 2) := Text("a"), (1, 3) := Text(""),
            (2, 1) := Numeric(Int(2)), (2, 2) := Text("b"), (2, 3) := Empty]);
      var wb := Workbook([summarySheet, Worksheet("Empty", 0, 0, map[])]);
      Extract(wb, str) == Document(
        [ SheetEntry("Summary", [[Num(Int(1)), Str("a"), Str("")], [Num(Int(2)), Str("b"), Str("")]], 2, 3),
          SheetEntry("Empty", [], 0, 0) ],
        Summary(2, [SheetInfo("Summary", 2, 3), SheetInfo("Empty", 0, 0)]))
  {
    var summarySheet := Worksheet("Summary", 2, 3,
      map[(1, 1) := Numeric(Int(1)), (1, 2) := Text("a"), (1, 3) := Text(""),
          (2, 1) := Numeric(Int(2)), (2, 2) := Text("b"), (2, 3) := Empty]);
    var emptySheet: Worksheet<O> := Worksheet("Empty", 0, 0, map[]);
    var wb := Workbook([summarySheet, emptySheet]);
    assert DistinctTitles(wb);
    var g := Flatten(summarySheet, str);
    assert g[0] == [Num(Int(1)), Str("a"), Str("")];
    assert g[1] == [Num(Int(2)), Str("b"), Str("")];
    assert g == [g[0], g[1]];
    ExtractSheetByPosition(wb, str, 0);
    ExtractSheetByPosition(wb, str, 1);
    ExtractConsistent(wb, str);
    var d := Extract(wb, str);
    assert d.sheets == [d.sheets[0], d.sheets[1]];
    assert d.summary.sheetInfo == [InfoOf(d.sheets[0]), InfoOf(d.sheets[1])];
  }
}
