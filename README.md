# Workbook extraction, modelled in Dafny

This project models `extract_workbook_data` from `extract_excel_data.py`. That function
turns a loaded spreadsheet workbook into one JSON-ready document:

- `sheets` holds one entry per worksheet: its name, its cells as rows, its row count and
  its column count;
- `summary` holds the number of sheets and a `sheet_info` list that repeats each sheet's
  name, row count and column count.

The model has three modules:

- `Cells` (`cells.dfy`) covers the per-cell classification. A raw value is `Empty` (Python
  `None`), a `Numeric` (an `int`, a `float` kept as its opaque 64-bit pattern, or a
  `bool`), a `Text`, or some `Other` library object of type `O`. The source's test
  `isinstance(value, (int, float))` is modelled literally, over Python's class hierarchy,
  where `bool` is a subclass of `int`. So the fact that booleans pass through unchanged is
  proved, not assumed. The text of other objects is library-defined, so `str()` on them is
  a function parameter `str: O -> string`. A Python string converts to itself.
- `Sheets` (`sheets.dfy`) models a worksheet by its title, its reported used range
  (`max_row`, `max_column`) and its stored cells keyed by (row, column). A position with
  no stored cell holds `None`. `FlattenSheet` is the nested row/cell loop. It is proved
  against the specification function `Flatten`. A lemma proves that the output, read row
  by row, lists the cells of the used range in row-major order. `Lookup` is `wb[name]`: the first worksheet with that title.
- `Extraction` (`extraction.dfy`) models the document. The method `ExtractWorkbookData`
  keeps the `sheets` list and the `summary` record as local values and appends to them as
  the source does. It then sets `total_sheets`. It is proved equal to `Extract`, whose
  recursive part `Assemble` folds the sheets' entries into the document, one sheet per
  step. The lemmas about `Assemble` and `Extract` prove these facts:
  - the document is consistent (`summary` mirrors `sheets`, and counts match the data);
  - each step appends one entry to each list and changes nothing else;
  - sheets keep the workbook's order, each appearing once.

Notes on behaviour, following the code:

- A boolean cell is kept as a boolean (JSON `true`/`false`), not turned into text. This is
  because `bool` is a subclass of `int`.
- An empty cell and a cell holding the text `""` give the same output value `""`.
- `rows` is the number of rows produced, which is `max_row`. `columns` is `max_column` as
  reported. A sheet reported with `n` rows and 0 columns gives `n` empty rows and
  `rows == n`, not an empty `data` list.
- Extraction is a function of the workbook, so running it twice on the same workbook gives
  the same document.

## Model

| member | source | states |
|---|---|---|
| `Cells.IntOrFloatInstances` | extract_excel_data.py:37 | `isinstance(value, (int, float))` holds exactly for numeric values, booleans included, because `bool` subclasses `int` |
| `Cells.Normalise` | extract_excel_data.py:34-40 | the result is a number exactly when the raw value is one, and then it is that same value; `None` gives `""`; a string gives itself; any other object gives its `str()` text; never `None` |
| `Cells.BooleansPassThrough` | extract_excel_data.py:37-38 | a boolean cell is kept as that boolean, not converted to a string |
| `Cells.StringResultOrigin` | extract_excel_data.py:35-40 | a string result came from an empty cell (and is `""`), from that same text, or from `str()` of another object; an empty cell and the text `""` are indistinguishable |
| `Sheets.FlattenRow` | extract_excel_data.py:30-40 | one row has exactly `max_column` cells, the c-th being the normalised value of column c + 1 |
| `Sheets.Flatten` | extract_excel_data.py:26-41 | the data has exactly `max_row` rows of `max_column` cells each, and entry [r][c] is the normalised value of cell (r + 1, c + 1) |
| `Sheets.FlattenSheet` | extract_excel_data.py:26-41 | the nested loops build exactly `max_row` rows of `max_column` normalised cells, cell (r + 1, c + 1) at [r][c], equal to `Flatten` |
| `Sheets.FlattenRowMajor` | extract_excel_data.py:30-32 | the output, read row by row, holds max_row * max_column cells, and its (r * max_column + c)-th cell is cell (r + 1, c + 1) |
| `Sheets.FlattenReadsUsedRangeOnly` | extract_excel_data.py:27-30 | only cells inside the reported used range affect the data |
| `Sheets.SheetNames` | extract_excel_data.py:21 | the sheet names are the worksheets' titles, one per worksheet, in workbook order |
| `Sheets.IndexOf` | extract_excel_data.py:23 | the index found holds the name and no earlier index does |
| `Sheets.Lookup` | extract_excel_data.py:23 | `wb[name]` is a worksheet of the workbook with that title |
| `Sheets.LookupByTitle` | extract_excel_data.py:21-23 | with distinct titles, looking up the k-th sheet name yields the k-th worksheet |
| `Extraction.Initial` | extract_excel_data.py:13-19 | before any sheet is processed, `sheets` and `sheet_info` are empty and `total_sheets` is 0 |
| `Extraction.Entry` | extract_excel_data.py:44-49 | a sheet's entry has that sheet's name, its `data` is that sheet's flattened used range, `rows == len(data) == max_row`, `columns == max_column`, and every row has `columns` cells |
| `Extraction.Entries` | extract_excel_data.py:21-23 | there is one entry per worksheet, the k-th being the entry of the k-th sheet name |
| `Extraction.AssembleAppend` | extract_excel_data.py:44-56 | processing one more sheet appends exactly one entry to `sheets` and one to `sheet_info`, and leaves `total_sheets` unchanged |
| `Extraction.AssembleRecords` | extract_excel_data.py:44-56 | after the loop, `sheets` holds exactly the processed entries in order; `sheet_info[k]` has the same name, rows and columns as `sheets[k]`; `total_sheets` is still 0 |
| `Extraction.ExtractConsistent` | extract_excel_data.py:44-60 | in the finished document, `total_sheets == len(sheets) == len(sheet_info)`; `sheet_info` mirrors `sheets` entry by entry; every entry's `rows` is its data length and every row has `columns` cells |
| `Extraction.ExtractOrder` | extract_excel_data.py:21-60 | the document has one entry per sheet name, in workbook order, none dropped or repeated; each entry holds the flattened sheet looked up by that name |
| `Extraction.ExtractSheetByPosition` | extract_excel_data.py:21-49 | with distinct titles, the k-th entry is the k-th worksheet's title, its flattened data, and its `max_row` and `max_column` |
| `Extraction.ExtractWorkbookData` | extract_excel_data.py:8-62 | the loops build exactly `Extract`: a consistent document whose `total_sheets` is the number of sheets and whose entries carry the sheet names in order |
| `Extraction.ExampleTwoSheets` | extract_excel_data.py:13-60 | a 2×3 sheet holding `1, "a", ""` / `2, "b", None` and a 0×0 sheet give `[[1,"a",""],[2,"b",""]]` with 2 rows and 3 columns, then `[]` with 0 and 0, and a matching summary with `total_sheets` 2 |

## Left out

- Loading the workbook (`load_workbook(..., data_only=True)`, line 11) is a library call. The
  model takes the loaded worksheets as input: titles, reported used range and stored cell
  values. The library's used-range rules (and what it reports for a blank sheet) are not
  modelled. A missing or invalid file fails inside the library before extraction starts.
- Sheets.Lookup: `wb[name]` would raise `KeyError` for an unknown name. Every name comes
  from the workbook's own name list, so that path cannot be reached, and the model requires
  the name to be present.
- The text that `str()` gives for dates, times, error values and other library objects is
  library-defined, so it is a parameter. Float values are opaque bit patterns; their JSON
  formatting is not modelled.
- Writing the JSON file, creating its directory, and the `__main__` block (lines 64-86) are
  I/O.
- Console progress and summary printing (lines 10, 22, 58, 78-86) are I/O.
