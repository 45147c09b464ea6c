/** The loaded workbook as the extractor sees it, and the flattening of one
    worksheet into rows of normalised cells. */
module Sheets {
  import opened Cells

  /** A worksheet as the loader reports it: its title, its used range
      (`max_row` by `max_column`, 1-based) and the cells it stores, keyed by
      (row, column). A position with no stored cell holds `None`. */
  datatype Worksheet<O> = Worksheet(title: string, maxRow: nat, maxCol: nat, cells: map<(nat, nat), RawValue<O>>)

  /** A workbook: its worksheets in the workbook's own order. */
  datatype Workbook<O> = Workbook(worksheets: seq<Worksheet<O>>)

  /** The rows of one flattened sheet. */
  type Grid = seq<seq<Cell>>

  /** The value of the cell at (row, col). */
  function CellValue<O>(ws: Worksheet<O>, row: nat, col: nat): RawValue<O>
  {
    if (row, col) in ws.cells then ws.cells[(row, col)] else Empty
  }

  /** The normalised cells of row `row`, columns 1 to `maxCol`. */
  function FlattenRow<O>(ws: Worksheet<O>, row: nat, str: O -> string): (cells: seq<Cell>)
    ensures |cells| == ws.maxCol
    ensures forall c :: 0 <= c < |cells| ==> cells[c] == Normalise(CellValue(ws, row, c + 1), str)
  {
    seq(ws.maxCol, c requires 0 <= c < ws.maxCol => Normalise(CellValue(ws, row, c + 1), str))
  }

  /** The whole used range, rows 1 to `maxRow`: entry [r][c] is the
      normalised value of cell (r + 1, c + 1). */
  function Flatten<O>(ws: Worksheet<O>, str: O -> string): (g: Grid)
    ensures |g| == ws.maxRow
    ensures forall r :: 0 <= r < |g| ==> |g[r]| == ws.maxCol
    ensures forall r, c :: 0 <= r < |g| && 0 <= c < |g[r]| ==> g[r][c] == Normalise(CellValue(ws, r + 1, c + 1), str)
  {
    seq(ws.maxRow, r requires 0 <= r < ws.maxRow => FlattenRow(ws, r + 1, str))
  }

  /** Walks the used range row by row, each row left to right, appending the
      normalised value of every cell to the current row and every finished
      row to the result. */
  method FlattenSheet<O>(ws: Worksheet<O>, str: O -> string) returns (data: Grid)
    ensures |data| == ws.maxRow
    ensures forall r :: 0 <= r < |data| ==> |data[r]| == ws.maxCol
    ensures forall r, c :: 0 <= r < |data| && 0 <= c < |data[r]| ==> data[r][c] == Normalise(CellValue(ws, r + 1, c + 1), str)
    ensures data == Flatten(ws, str)
  {
    data := [];
    var row := 1;
    while row <= ws.maxRow
      invariant 1 <= row <= ws.maxRow + 1
      invariant data == Flatten(ws, str)[..row - 1]
    {
      var rowData: seq<Cell> := [];
      var col := 1;
      while col <= ws.maxCol
        invariant 1 <= col <= ws.maxCol + 1
        invariant rowData == FlattenRow(ws, row, str)[..col - 1]
      {
        rowData := rowData + [Normalise(CellValue(ws, row, col), str)];
        col := col + 1;
      }
      assert rowData == Flatten(ws, str)[row - 1];
      assert Flatten(ws, str)[..row] == Flatten(ws, str)[..row - 1] + [rowData];
      data := data + [rowData];
      row := row + 1;
    }
  }

  /** All rows of a grid, one after the other. */
  function Concat(g: Grid): seq<Cell>
  {
    if g == [] then [] else g[0] + Concat(g[1..])
  }

  /** In a grid whose rows all have `width` cells, cell (r, c) is the
      (r * width + c)-th one when the grid is read row by row. */
  lemma {:induction false} ConcatAt(g: Grid, width: nat, r: nat, c: nat)
    requires forall k :: 0 <= k < |g| ==> |g[k]| == width
    requires r < |g| && c < width
    ensures |Concat(g)| == |g| * width
    ensures r * width + c < |Concat(g)| && Concat(g)[r * width + c] == g[r][c]
  {
    ConcatLength(g, width);
    assert Concat(g) == g[0] + Concat(g[1..]);
    if r > 0 {
      ConcatAt(g[1..], width, r - 1, c);
      RowOffset(r, width);
      assert Concat(g)[(r - 1) * width + c + width] == Concat(g[1..])[(r - 1) * width + c];
    }
  }

  lemma RowOffset(r: nat, width: nat)
    requires r > 0
    ensures r * width == (r - 1) * width + width
  {
  }

  lemma {:induction false} ConcatLength(g: Grid, width: nat)
    requires forall k :: 0 <= k < |g| ==> |g[k]| == width
    ensures |Concat(g)| == |g| * width
  {
    if g != [] {
      ConcatLength(g[1..], width);
      RowOffset(|g|, width);
    }
  }

  /** The output, read row by row, lists the cells of the used range in
      row-major order: its (r * maxCol + c)-th cell is cell (r + 1, c + 1). */
  lemma FlattenRowMajor<O>(ws: Worksheet<O>, str: O -> string, r: nat, c: nat)
    requires r < ws.maxRow && c < ws.maxCol
    ensures |Concat(Flatten(ws, str))| == ws.maxRow * ws.maxCol
    ensures r * ws.maxCol + c < |Concat(Flatten(ws, str))|
    ensures Concat(Flatten(ws, str))[r * ws.maxCol + c] == Normalise(CellValue(ws, r + 1, c + 1), str)
  {
    ConcatAt(Flatten(ws, str), ws.maxCol, r, c);
  }

  /** Cells stored outside the used range play no part in the result. */
  lemma FlattenReadsUsedRangeOnly<O>(ws: Worksheet<O>, ws': Worksheet<O>, str: O -> string)
    requires ws.maxRow == ws'.maxRow && ws.maxCol == ws'.maxCol
    requires forall r, c :: 1 <= r <= ws.maxRow && 1 <= c <= ws.maxCol ==> CellValue(ws, r, c) == CellValue(ws', r, c)
    ensures Flatten(ws, str) == Flatten(ws', str)
  {
    var g, g' := Flatten(ws, str), Flatten(ws', str);
    forall r | 0 <= r < |g|
      ensures g[r] == g'[r]
    {
      assert forall c :: 0 <= c < ws.maxCol ==> g[r][c] == g'[r][c];
    }
  }

  /** The sheet titles, in workbook order (`wb.sheetnames`). */
  function SheetNames<O>(wb: Workbook<O>): (names: seq<string>)
    ensures |names| == |wb.worksheets|
    ensures forall k :: 0 <= k < |names| ==> names[k] == wb.worksheets[k].title
  {
    seq(|wb.worksheets|, k requires 0 <= k < |wb.worksheets| => wb.worksheets[k].title)
  }

  /** The position of the first occurrence of `name` in `names`. */
  function IndexOf(names: seq<string>, name: string): (k: nat)
    requires name in names
    ensures k < |names| && names[k] == name
    ensures forall j :: 0 <= j < k ==> names[j] != name
  {
    if names[0] == name then 0 else 1 + IndexOf(names[1..], name)
  }

  /** `wb[name]`: the worksheet with that title (the first one, should two
      share it). */
  function Lookup<O>(wb: Workbook<O>, name: string): (ws: Worksheet<O>)
    requires name in SheetNames(wb)
    ensures ws.title == name && ws in wb.worksheets
  {
    wb.worksheets[IndexOf(SheetNames(wb), name)]
  }

  predicate DistinctTitles<O>(wb: Workbook<O>)
  {
    forall i, j :: 0 <= i < j < |wb.worksheets| ==> wb.worksheets[i].title != wb.worksheets[j].title
  }

  /** When titles are distinct, looking up the k-th title finds the k-th sheet. */
  lemma LookupByTitle<O>(wb: Workbook<O>, k: nat)
    requires DistinctTitles(wb) && k < |wb.worksheets|
    ensures wb.worksheets[k].title in SheetNames(wb)
    ensures Lookup(wb, wb.worksheets[k].title) == wb.worksheets[k]
  {
    var names := SheetNames(wb);
    assert names[k] == wb.worksheets[k].title;
  }
}
