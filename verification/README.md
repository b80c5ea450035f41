# gsheet_creator payload builders in Dafny

gsheet_creator is a client-side helper for a remote spreadsheet service. It
builds request payloads such as sheets, cells, ranges, merges, dimension
updates and format updates, and then submits them in batch calls. It has two
implementations: a Go package (`gsheet/gsheet.go`) and a Python class
(`gsheet_creator.py`). This project models their pure payload builders as
immutable Dafny datatypes and functions and proves what each payload holds.

- `wrappers.dfy`: module `Wrappers`. `Option` is used for a nil Go pointer or an absent Python dict key.
- `values.dfy`: module `Values`. Floating-point numbers are kept as opaque 64-bit patterns, and a `Color` holds three such channels.
- `gsheet.dfy`: module `GSheet`, the Go builders. Go structs are modelled with their zero values for unset fields. The grid builders are methods whose loops mirror the Go loops.
- `gsheet_creator.dfy`: module `GSheetCreator`, the Python builders. Optional dict keys become `Option` fields. Python's `str(value)` is the function parameter `render`. The `for ... append` loops are recursive functions over the list prefix.
- `agreement.dfy`: module `Agreement`. It compares the Go and Python builders for column width, freeze rows and cell background. The two payloads have the same sheet, dimension and indices where the request has them, and the same value and mask. Each background builder passes its own range through unchanged, and the two range types are not compared. The sheet and cell builders of the two implementations are not compared: Go cells add a horizontal alignment, and Python writes one data entry per row with its start row.

Field masks: each module defines the set of field-mask paths that a
properties payload actually sets (`SheetPaths`, `DimensionPaths`,
`CellPaths`, and in Python `SpreadsheetPaths`). For a Go struct, a path is set when its field differs from the
zero value. For a Python dict, a path is set when its key is present. The
sheet id is the selector, so it is not a path. Every request builder's
mask covers the paths the builder sets. The mask equals those paths
unless a Go value is its zero value: a pixel size or frozen row count of
0, or a nil background colour. Merge and auto-resize requests carry no
mask.

## Model

| member | source | states |
|---|---|---|
| `GSheet.MaxRowLength` | gsheet/gsheet.go:62-67 | the running maximum of row lengths bounds every row, equals some row's length, and is 0 for a grid with no rows |
| `GSheet.NewSheet` | gsheet/gsheet.go:71-84 | the sheet has one grid-data block holding the rows, the given title, row and column counts, and frozen count 0; the sheet id is set only when the argument is positive and otherwise stays 0 |
| `GSheet.NewSheetFromStringGrid` | gsheet/gsheet.go:58-87 | row count is the number of input rows; column count is the longest row (0 when there are none); no rows are frozen; row i has as many cells as input row i; cell (i, j) holds string `data[i][j]` with the creator's wrap/alignment settings and no background; the sheet id is set only when positive |
| `GSheet.NewSheetFromCellGrid` | gsheet/gsheet.go:89-121 | row count is the number of input rows; column count is the longest row; no rows are frozen; each row holds exactly the input cells of that row, in order; the sheet id is set only when positive |
| `GSheet.NewCell` | gsheet/gsheet.go:138-146 | the value and format that every typed cell builder shares: the cell holds the given value and the creator's three settings with the given background; its set paths are the value, each non-empty creator setting, and the background exactly when a colour is given |
| `GSheet.DefaultStringCellFormat` | gsheet/gsheet.go:51-53 | a string cell from the default creator is formatted WRAP / MIDDLE / LEFT with no background, and sets exactly the value and those three format paths |
| `GSheet.NewStringCellWithBackground` | gsheet/gsheet.go:137-147 | the cell holds the given string and carries the creator's wrap, vertical and horizontal settings with the given background; it sets the value path, the non-empty creator paths, and the background path exactly when a colour is given |
| `GSheet.NewStringCell` | gsheet/gsheet.go:133-135 | the cell holds the given string, in the creator's format with no background; no background path is set |
| `GSheet.NewNumberCellWithBackground` | gsheet/gsheet.go:153-163 | the cell holds the given number (not a string), in the creator's format with the given background; it sets the value path, the non-empty creator paths, and the background path exactly when a colour is given |
| `GSheet.NewNumberCell` | gsheet/gsheet.go:149-151 | the cell holds the given number, in the creator's format with no background; no background path is set |
| `GSheet.NewBoolCellWithBackground` | gsheet/gsheet.go:169-179 | the cell holds the given boolean (not a string), in the creator's format with the given background; it sets the value path, the non-empty creator paths, and the background path exactly when a colour is given |
| `GSheet.NewBoolCell` | gsheet/gsheet.go:165-167 | the cell holds the given boolean, in the creator's format with no background; no background path is set |
| `GSheet.NewStringRowWithBackground` | gsheet/gsheet.go:189-195 | one cell per input string, in order; cell i holds `data[i]`, and every cell has the creator's format and the same supplied colour |
| `GSheet.NewStringRow` | gsheet/gsheet.go:181-187 | one cell per input string, in order; cell i holds `data[i]` in the creator's format with no background |
| `GSheet.HideColumns` | gsheet/gsheet.go:197-210 | a dimension update on `"COLUMNS"` of the given sheet and indices; it sets `hiddenByUser`, and the set properties are exactly the mask `"hiddenByUser"` |
| `GSheet.FreezeRows` | gsheet/gsheet.go:212-221 | a sheet-properties update of the given sheet id that sets the frozen row count; the mask `"gridProperties.frozenRowCount"` covers every property set, and equals it when the count is non-zero |
| `GSheet.UpdatePixelSize` | gsheet/gsheet.go:224-237 | the pixel-size request that the width and height builders share: the given sheet, dimension and indices, pixel size `size`, and a `"pixelSize"` mask that covers every property set (equal to it when the size is non-zero) |
| `GSheet.UpdateColumnWidth` | gsheet/gsheet.go:223-238 | a dimension update on `"COLUMNS"` of the given sheet and indices with pixel size `width`; the mask `"pixelSize"` covers every property set |
| `GSheet.UpdateRowHeight` | gsheet/gsheet.go:240-255 | a dimension update on `"ROWS"` of the given sheet and indices with pixel size `height`; the mask `"pixelSize"` covers every property set |
| `GSheet.UpdateCellBackground` | gsheet/gsheet.go:257-269 | a repeat-cell request that passes the range through unchanged and sets only the background colour; its mask is `"userEnteredFormat(backgroundColor)"` |
| `GSheetCreator.UpdateDocTitle` | gsheet_creator.py:65-74 | a spreadsheet-properties update whose only key is the title; that key is exactly the mask `'title'`; the sheet id argument is ignored |
| `GSheetCreator.SetupRowData` | gsheet_creator.py:86-93 | one cell per value, in order; cell i shows `str(values[i])` with wrap `'WRAP'` and vertical alignment `'MIDDLE'`, and sets no other key |
| `GSheetCreator.RowEntries` | gsheet_creator.py:98-104 | one data entry per row; entry i starts at row i and holds the row data built from row i |
| `GSheetCreator.AddSheetData` | gsheet_creator.py:96-105 | the sheet's data becomes a list as long as the input; entry i starts at row i, and its cell j shows `str(sheet_data[i][j])` in the row format; the properties are unchanged |
| `GSheetCreator.CreateSheet` | gsheet_creator.py:108-119 | title, row count and column count come from the arguments; the data key is present exactly when the data is non-empty, and then holds one entry per data row, as add_sheet_data builds it |
| `GSheetCreator.CreateSheetSizeIgnoresData` | gsheet_creator.py:108-119 | the properties of a created sheet do not depend on the data passed in |
| `GSheetCreator.CreateSheetDefaults` | gsheet_creator.py:108-119 | called with only a title, create_sheet gives a 20 by 12 grid and no data key |
| `GSheetCreator.RangesFromIndexes` | gsheet_creator.py:122-133 | `startRowIndex` is always present; each other bound and the sheet id is present exactly when its argument is truthy (neither None nor 0), and then carries that argument |
| `GSheetCreator.ZeroBoundIsDropped` | gsheet_creator.py:125-132 | passing 0 for any optional bound or sheet id builds the same range as passing None |
| `GSheetCreator.MergeSheetRanges` | gsheet_creator.py:136-146 | one merge request per range, in input order; each carries its range and the same merge type (`"MERGE_ALL"` by default) |
| `GSheetCreator.MergeSheetRangesAppend` | gsheet_creator.py:136-146 | merging a concatenation of range lists gives the concatenation of their merge lists |
| `GSheetCreator.RowEntriesAppend` | gsheet_creator.py:99-104 | appending a row to the input appends exactly one entry, at start row equal to the number of earlier rows |
| `GSheetCreator.UpdateCellBackground` | gsheet_creator.py:149-161 | a repeat-cell request with the range passed through unchanged; the cell sets only the background colour, which is exactly the mask `"userEnteredFormat(backgroundColor)"` |
| `GSheetCreator.UpdateColumnWidth` | gsheet_creator.py:164-179 | a dimension update on `"COLUMNS"` of the given sheet and indices with pixel size `width` (100 by default); its one property key is exactly the mask `"pixelSize"` |
| `GSheetCreator.AutoResizeColumns` | gsheet_creator.py:182-193 | an auto-resize request on `"COLUMNS"` of the given sheet and indices |
| `GSheetCreator.AutoResizeMatchesColumnWidth` | gsheet_creator.py:164-193 | auto-resize addresses exactly the dimension range that a width update with the same arguments addresses, whatever the width |
| `GSheetCreator.FreezeRows` | gsheet_creator.py:196-208 | a sheet-properties update of the given sheet id that sets only the frozen row count, which is exactly the mask `"gridProperties.frozenRowCount"` |
| `Agreement.ColumnWidthAgrees` | gsheet/gsheet.go:223-238 | the Go and Python column-width requests have the same sheet, dimension, indices, pixel size and mask, and set the same paths when the width is non-zero |
| `Agreement.FreezeRowsAgree` | gsheet/gsheet.go:212-221 | the Go and Python freeze requests have the same sheet and mask; they set the same paths for a non-zero count, but for 0 the Go struct drops the field while the Python dict names it |
| `Agreement.CellBackgroundAgrees` | gsheet/gsheet.go:257-269 | the Go and Python background requests paint with the same colour under the same mask and set the same cell paths; each carries the range it was given, and the two ranges are not compared |

## Left out

- Authentication: `get_credentials` and `setup_service` (gsheet_creator.py:26-62) and all of cmd/main.go are not modelled. They are file, network and interactive I/O.
- Remote calls: `CreateSpreadsheet`, `ExecuteUpdates`, `ShareWithDomain` and `MoveToFolder` (gsheet/gsheet.go) are not modelled, nor are `execute_batch_request` and `create_spreadsheet` (gsheet_creator.py). They are thin wrappers over a service SDK that is not part of this model. This also leaves out the shared mutable default list of `create_spreadsheet`.
- `NewGSheetCreator` is not modelled beyond its three string settings (`GSheet.DefaultCreator`). It constructs service clients and a colour table of floating-point values.
- Floating-point values in number cells and colours are opaque bit patterns. No arithmetic is done on them. A colour's alpha channel is not represented.
- Go's `int64` ids, indices, counts and pixel sizes are unbounded integers. Go slice lengths always fit in `int64`, so the `int64(len(...))` conversions in the grid builders never truncate.
- `GSheet.NewSheetFromCellGrid`: cells are modelled as values, so a nil `*CellData` entry in the input is not represented. The copy is verbatim in either case.
- Python arguments are typed. `row_index_start` is an integer; it is copied unconditionally, so a None start is not represented. The other range bounds and the sheet id are integers or None, and titles are strings. Truthiness is modelled for `Option<int>` only (None and 0 are false). Other falsy Python values such as `False` or `''` are not modelled.
- `GSheetCreator.SetupRowData`: `render` is a total function, so Python's `str()` is assumed not to raise. A value whose `__str__` raises, or a non-ASCII unicode value under Python 2, is not represented.
- `GSheetCreator.AddSheetData`: the source mutates the sheet dict in place and returns None. The model returns the updated dict instead.
- The Python `__main__` demo block is not modelled.
