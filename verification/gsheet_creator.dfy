/** The Python payload builders of gsheet_creator.py (class GSheetEditor).

    Each builder returns a nested dict for the spreadsheet service. A dict
    key the builder may leave out becomes an Option field; keys it always
    writes become plain fields. Python's str() of a cell value is the
    parameter `render`, since the values may be of any type. */
module GSheetCreator {
  import opened Wrappers
  import opened Values

  datatype SpreadsheetProperties = SpreadsheetProperties(title: string)

  datatype GridProperties = GridProperties(rowCount: Option<int>, columnCount: Option<int>, frozenRowCount: Option<int>)

  datatype SheetProperties = SheetProperties(sheetId: Option<int>, title: Option<string>, gridProperties: Option<GridProperties>)

  datatype ExtendedValue = ExtendedValue(stringValue: string)

  datatype CellFormat = CellFormat(wrapStrategy: Option<string>, verticalAlignment: Option<string>, backgroundColor: Option<Color>)

  datatype CellData = CellData(userEnteredValue: Option<ExtendedValue>, userEnteredFormat: Option<CellFormat>)

  datatype RowData = RowData(values: seq<CellData>)

  /** One entry of a sheet's 'data' list: a single row placed at startRow. */
  datatype GridData = GridData(startRow: int, rowData: RowData)

  datatype Sheet = Sheet(properties: SheetProperties, data: Option<seq<GridData>>)

  /** A range reference; end indices are exclusive. */
  datatype GridRange = GridRange(
    startRowIndex: int,
    endRowIndex: Option<int>,
    startColumnIndex: Option<int>,
    endColumnIndex: Option<int>,
    sheetId: Option<int>)

  datatype DimensionRange = DimensionRange(sheetId: int, dimension: string, startIndex: int, endIndex: int)

  datatype DimensionProperties = DimensionProperties(pixelSize: int)

  /** One entry of a batch update: exactly one kind of request is set. */
  datatype Request =
    | UpdateSpreadsheetProperties(spreadsheetProperties: SpreadsheetProperties, fields: string)
    | MergeCells(mergeRange: GridRange, mergeType: string)
    | RepeatCell(cellRange: GridRange, cell: CellData, fields: string)
    | UpdateDimensionProperties(dimensionRange: DimensionRange, dimensionProperties: DimensionProperties, fields: string)
    | AutoResizeDimensions(dimensions: DimensionRange)
    | UpdateSheetProperties(sheetProperties: SheetProperties, fields: string)

  /** The format every cell of setup_row_data carries. */
  const RowFormat := CellFormat(Some("WRAP"), Some("MIDDLE"), None)

  /** The merge type merge_sheet_ranges uses when none is given. */
  const DefaultMergeType := "MERGE_ALL"

  /** The column width update_column_width uses when none is given. */
  const DefaultWidth := 100

  /** The grid size create_sheet uses when none is given. */
  const DefaultRows := 20
  const DefaultColumns := 12

  /* ---------- Reading payloads back ---------- */

  /** Python truthiness of an optional integer argument: None and 0 are false. */
  predicate Truthy(a: Option<int>) {
    a.Some? && a.value != 0
  }

  /** The keys present in a range dict. */
  function RangeKeys(r: GridRange): set<string> {
    {"startRowIndex"}
    + (if r.endRowIndex.Some? then {"endRowIndex"} else {})
    + (if r.startColumnIndex.Some? then {"startColumnIndex"} else {})
    + (if r.endColumnIndex.Some? then {"endColumnIndex"} else {})
    + (if r.sheetId.Some? then {"sheetId"} else {})
  }

  /** Field-mask paths of the sheet properties a dict sets; the sheet id
      selects the sheet and is not a path. */
  function SheetPaths(p: SheetProperties): set<string> {
    (if p.title.Some? then {"title"} else {})
    + match p.gridProperties
      case None => {}
      case Some(g) =>
        (if g.rowCount.Some? then {"gridProperties.rowCount"} else {})
        + (if g.columnCount.Some? then {"gridProperties.columnCount"} else {})
        + (if g.frozenRowCount.Some? then {"gridProperties.frozenRowCount"} else {})
  }

  /** Field-mask paths of the cell parts a dict sets. */
  function CellPaths(c: CellData): set<string> {
    (if c.userEnteredValue.Some? then {"userEnteredValue"} else {})
    + match c.userEnteredFormat
      case None => {}
      case Some(f) =>
        (if f.wrapStrategy.Some? then {"userEnteredFormat(wrapStrategy)"} else {})
        + (if f.verticalAlignment.Some? then {"userEnteredFormat(verticalAlignment)"} else {})
        + (if f.backgroundColor.Some? then {"userEnteredFormat(backgroundColor)"} else {})
  }

  /** Field-mask paths of the spreadsheet properties a dict sets: its one key. */
  function SpreadsheetPaths(p: SpreadsheetProperties): set<string> {
    {"title"}
  }

  /** Field-mask paths of the dimension properties a dict sets: its one key. */
  function DimensionPaths(p: DimensionProperties): set<string> {
    {"pixelSize"}
  }

  /** The text a cell shows, if it has a value. */
  function CellText(c: CellData): Option<string> {
    match c.userEnteredValue
    case Some(v) => Some(v.stringValue)
    case None => None
  }

  /* ---------- Builders ---------- */

  /** Renames the spreadsheet; the sheet id argument is not used. */
  function UpdateDocTitle(sheetId: string, docTitle: string): (r: Request)
    ensures r.UpdateSpreadsheetProperties?
    ensures r.spreadsheetProperties.title == docTitle
    ensures r.fields == "title"
    ensures SpreadsheetPaths(r.spreadsheetProperties) == {r.fields}
  {
    UpdateSpreadsheetProperties(SpreadsheetProperties(docTitle), "title")
  }

  /** One wrapped, vertically centred text cell per value, in order. */
  function SetupRowData<V>(render: V -> string, values: seq<V>): (r: RowData)
    ensures |r.values| == |values|
    ensures forall i :: 0 <= i < |values| ==>
      CellText(r.values[i]) == Some(render(values[i])) && r.values[i].userEnteredFormat == Some(RowFormat)
    ensures forall i :: 0 <= i < |values| ==>
      CellPaths(r.values[i]) == {"userEnteredValue", "userEnteredFormat(wrapStrategy)", "userEnteredFormat(verticalAlignment)"}
  {
    if |values| == 0 then RowData([])
    else
      var cell := CellData(Some(ExtendedValue(render(values[|values| - 1]))), Some(RowFormat));
      RowData(SetupRowData(render, values[..|values| - 1]).values + [cell])
  }

  /** The 'data' list add_sheet_data builds: entry i is row i placed at startRow i. */
  function RowEntries<V>(render: V -> string, sheetData: seq<seq<V>>): (entries: seq<GridData>)
    ensures |entries| == |sheetData|
    ensures forall i :: 0 <= i < |sheetData| ==>
      entries[i].startRow == i && entries[i].rowData == SetupRowData(render, sheetData[i])
  {
    if |sheetData| == 0 then []
    else
      var last := |sheetData| - 1;
      RowEntries(render, sheetData[..last]) + [GridData(last, SetupRowData(render, sheetData[last]))]
  }

  /** Replaces the sheet's 'data' with one entry per row of sheetData; the
      source mutates the dict in place, here the updated dict is returned. */
  function AddSheetData<V>(render: V -> string, sheet: Sheet, sheetData: seq<seq<V>>): (r: Sheet)
    ensures r.properties == sheet.properties
    ensures r.data.Some? && |r.data.value| == |sheetData|
    ensures forall i :: 0 <= i < |sheetData| ==>
      r.data.value[i].startRow == i && |r.data.value[i].rowData.values| == |sheetData[i]|
    ensures forall i, j :: 0 <= i < |sheetData| && 0 <= j < |sheetData[i]| ==>
      CellText(r.data.value[i].rowData.values[j]) == Some(render(sheetData[i][j]))
      && r.data.value[i].rowData.values[j].userEnteredFormat == Some(RowFormat)
  {
    sheet.(data := Some(RowEntries(render, sheetData)))
  }

  /** A sheet dict whose grid size comes from the arguments, with row data
      only when sheetData is non-empty. */
  function CreateSheet<V>(render: V -> string, title: string, rows: int := DefaultRows, columns: int := DefaultColumns, sheetData: seq<seq<V>> := []): (r: Sheet)
    ensures r.properties.sheetId == None
    ensures r.properties.title == Some(title)
    ensures r.properties.gridProperties == Some(GridProperties(Some(rows), Some(columns), None))
    ensures r.data.Some? <==> |sheetData| > 0
    ensures r.data.Some? ==> r.data == Some(RowEntries(render, sheetData))
  {
    var sheet := Sheet(SheetProperties(None, Some(title), Some(GridProperties(Some(rows), Some(columns), None))), None);
    if |sheetData| > 0 then AddSheetData(render, sheet, sheetData) else sheet
  }

  /** A range dict: the start row always, every other bound only when its
      argument is truthy, so a bound of 0 is dropped just like None. */
  function RangesFromIndexes(
    rowIndexStart: int,
    rowIndexEnd: Option<int>,
    columnIndexStart: Option<int>,
    columnIndexEnd: Option<int>,
    sheetId: Option<int>): (r: GridRange)
    ensures r.startRowIndex == rowIndexStart
    ensures "endRowIndex" in RangeKeys(r) <==> Truthy(rowIndexEnd)
    ensures "startColumnIndex" in RangeKeys(r) <==> Truthy(columnIndexStart)
    ensures "endColumnIndex" in RangeKeys(r) <==> Truthy(columnIndexEnd)
    ensures "sheetId" in RangeKeys(r) <==> Truthy(sheetId)
    ensures r.endRowIndex.Some? ==> r.endRowIndex == rowIndexEnd
    ensures r.startColumnIndex.Some? ==> r.startColumnIndex == columnIndexStart
    ensures r.endColumnIndex.Some? ==> r.endColumnIndex == columnIndexEnd
    ensures r.sheetId.Some? ==> r.sheetId == sheetId
  {
    GridRange(
      rowIndexStart,
      if Truthy(rowIndexEnd) then rowIndexEnd else None,
      if Truthy(columnIndexStart) then columnIndexStart else None,
      if Truthy(columnIndexEnd) then columnIndexEnd else None,
      if Truthy(sheetId) then sheetId else None)
  }

  /** One merge request per range, in order, all with the same merge type. */
  function MergeSheetRanges(ranges: seq<GridRange>, mergeType: string := DefaultMergeType): (merges: seq<Request>)
    ensures |merges| == |ranges|
    ensures forall i :: 0 <= i < |ranges| ==>
      merges[i].MergeCells? && merges[i].mergeRange == ranges[i] && merges[i].mergeType == mergeType
  {
    if |ranges| == 0 then []
    else MergeSheetRanges(ranges[..|ranges| - 1], mergeType) + [MergeCells(ranges[|ranges| - 1], mergeType)]
  }

  /** Paints every cell of a range with one background colour. */
  function UpdateCellBackground(updateRange: GridRange, backgroundColor: Color): (r: Request)
    ensures r.RepeatCell?
    ensures r.cellRange == updateRange
    ensures r.cell.userEnteredFormat == Some(CellFormat(None, None, Some(backgroundColor)))
    ensures r.fields == "userEnteredFormat(backgroundColor)"
    ensures CellPaths(r.cell) == {r.fields}
  {
    RepeatCell(updateRange, CellData(None, Some(CellFormat(None, None, Some(backgroundColor)))), "userEnteredFormat(backgroundColor)")
  }

  /** Sets the width of the columns [columnIndexStart, columnIndexEnd). */
  function UpdateColumnWidth(sheetId: int, columnIndexStart: int, columnIndexEnd: int, width: int := DefaultWidth): (r: Request)
    ensures r.UpdateDimensionProperties?
    ensures r.dimensionRange == DimensionRange(sheetId, "COLUMNS", columnIndexStart, columnIndexEnd)
    ensures r.dimensionProperties.pixelSize == width
    ensures r.fields == "pixelSize"
    ensures DimensionPaths(r.dimensionProperties) == {r.fields}
  {
    UpdateDimensionProperties(DimensionRange(sheetId, "COLUMNS", columnIndexStart, columnIndexEnd), DimensionProperties(width), "pixelSize")
  }

  /** Fits the width of the columns [columnIndexStart, columnIndexEnd) to their contents. */
  function AutoResizeColumns(sheetId: int, columnIndexStart: int, columnIndexEnd: int): (r: Request)
    ensures r.AutoResizeDimensions?
    ensures r.dimensions == DimensionRange(sheetId, "COLUMNS", columnIndexStart, columnIndexEnd)
  {
    AutoResizeDimensions(DimensionRange(sheetId, "COLUMNS", columnIndexStart, columnIndexEnd))
  }

  /** Freezes the first frozenNumber rows of a sheet. */
  function FreezeRows(sheetId: int, frozenNumber: int): (r: Request)
    ensures r.UpdateSheetProperties?
    ensures r.sheetProperties.sheetId == Some(sheetId)
    ensures r.sheetProperties.gridProperties.Some?
    ensures r.sheetProperties.gridProperties.value.frozenRowCount == Some(frozenNumber)
    ensures r.fields == "gridProperties.frozenRowCount"
    ensures SheetPaths(r.sheetProperties) == {r.fields}
  {
    UpdateSheetProperties(SheetProperties(Some(sheetId), None, Some(GridProperties(None, None, Some(frozenNumber)))), "gridProperties.frozenRowCount")
  }

  /* ---------- Properties relating several calls ---------- */

  /** The grid size of a created sheet depends only on the size arguments,
      never on the data it holds. */
  lemma CreateSheetSizeIgnoresData<V>(render: V -> string, title: string, rows: int, columns: int, d1: seq<seq<V>>, d2: seq<seq<V>>)
    ensures CreateSheet(render, title, rows, columns, d1).properties == CreateSheet(render, title, rows, columns, d2).properties
  {
  }

  /** Called with its defaults, create_sheet gives a 20 by 12 grid without data. */
  lemma CreateSheetDefaults<V>(render: V -> string, title: string)
    ensures CreateSheet(render, title) ==
      Sheet(SheetProperties(None, Some(title), Some(GridProperties(Some(20), Some(12), None))), None)
  {
  }

  /** Auto-resizing addresses exactly the columns a width update of the same
      arguments addresses, whatever the width. */
  lemma AutoResizeMatchesColumnWidth(sheetId: int, columnIndexStart: int, columnIndexEnd: int, width: int)
    ensures AutoResizeColumns(sheetId, columnIndexStart, columnIndexEnd).dimensions
         == UpdateColumnWidth(sheetId, columnIndexStart, columnIndexEnd, width).dimensionRange
  {
  }

  /** A zero bound and an absent bound build the same range. */
  lemma ZeroBoundIsDropped(rowIndexStart: int, rowIndexEnd: Option<int>, columnIndexStart: Option<int>, columnIndexEnd: Option<int>, sheetId: Option<int>)
    ensures RangesFromIndexes(rowIndexStart, Some(0), columnIndexStart, columnIndexEnd, sheetId)
         == RangesFromIndexes(rowIndexStart, None, columnIndexStart, columnIndexEnd, sheetId)
    ensures RangesFromIndexes(rowIndexStart, rowIndexEnd, Some(0), columnIndexEnd, sheetId)
         == RangesFromIndexes(rowIndexStart, rowIndexEnd, None, columnIndexEnd, sheetId)
    ensures RangesFromIndexes(rowIndexStart, rowIndexEnd, columnIndexStart, Some(0), sheetId)
         == RangesFromIndexes(rowIndexStart, rowIndexEnd, columnIndexStart, None, sheetId)
    ensures RangesFromIndexes(rowIndexStart, rowIndexEnd, columnIndexStart, columnIndexEnd, Some(0))
         == RangesFromIndexes(rowIndexStart, rowIndexEnd, columnIndexStart, columnIndexEnd, None)
  {
  }

  /** Merging a concatenation of range lists gives the concatenation of their
      merge lists, so merges can be built piecewise and appended to a batch. */
  lemma MergeSheetRangesAppend(a: seq<GridRange>, b: seq<GridRange>, mergeType: string)
    ensures MergeSheetRanges(a + b, mergeType) == MergeSheetRanges(a, mergeType) + MergeSheetRanges(b, mergeType)
  {
  }

  /** Building the data of a sheet row by row: appending one row of values
      appends exactly one entry, placed after all earlier rows. */
  lemma RowEntriesAppend<V>(render: V -> string, sheetData: seq<seq<V>>, row: seq<V>)
    ensures RowEntries(render, sheetData + [row]) == RowEntries(render, sheetData) + [GridData(|sheetData|, SetupRowData(render, row))]
  {
  }
}
