/** The Go payload builders of gsheet/gsheet.go.

    Each builder turns a few scalars or a matrix into a value of the
    spreadsheet service's request types. Go structs are modelled with their
    zero values (0, "", false) for fields a builder leaves unset; a pointer
    that may be nil becomes an Option, a pointer the builder always fills
    becomes a plain field. Go's int64 ids and indices are unbounded ints. */
module GSheet {
  import opened Wrappers
  import opened Values

  /** The three string settings of a GSheetCreator that every cell it builds
      carries in its format. */
  datatype Creator = Creator(wrapStrategy: string, verticalAlignment: string, horizontalAlignment: string)

  /** The settings NewGSheetCreator installs. */
  const DefaultCreator := Creator("WRAP", "MIDDLE", "LEFT")

  datatype ExtendedValue =
    | StringValue(stringValue: string)
    | NumberValue(numberValue: Float64)
    | BoolValue(boolValue: bool)

  datatype CellFormat = CellFormat(
    wrapStrategy: string,
    verticalAlignment: string,
    horizontalAlignment: string,
    backgroundColor: Option<Color>)

  datatype CellData = CellData(userEnteredValue: Option<ExtendedValue>, userEnteredFormat: Option<CellFormat>)

  datatype RowData = RowData(values: seq<CellData>)

  datatype GridData = GridData(rowData: seq<RowData>)

  datatype GridProperties = GridProperties(rowCount: int, columnCount: int, frozenRowCount: int)

  datatype SheetProperties = SheetProperties(sheetId: int, title: string, gridProperties: GridProperties)

  datatype Sheet = Sheet(properties: SheetProperties, data: seq<GridData>)

  datatype DimensionRange = DimensionRange(sheetId: int, dimension: string, startIndex: int, endIndex: int)

  datatype DimensionProperties = DimensionProperties(hiddenByUser: bool, pixelSize: int)

  datatype GridRange = GridRange(
    sheetId: int,
    startRowIndex: int,
    endRowIndex: int,
    startColumnIndex: int,
    endColumnIndex: int)

  /** One entry of a batch update: exactly one kind of request is set. */
  datatype Request =
    | UpdateDimensionProperties(dimensionRange: DimensionRange, dimensionProperties: DimensionProperties, fields: string)
    | UpdateSheetProperties(sheetProperties: SheetProperties, fields: string)
    | RepeatCell(gridRange: Option<GridRange>, cell: CellData, fields: string)

  /* ---------- Reading payloads back ---------- */

  /** The string a cell holds, if it holds one. */
  function CellString(c: CellData): Option<string> {
    match c.userEnteredValue
    case Some(StringValue(s)) => Some(s)
    case _ => None
  }

  /** The cell carries the creator's wrap and alignment settings and the
      given background colour. */
  predicate FormattedBy(gs: Creator, c: CellData, color: Option<Color>) {
    c.userEnteredFormat == Some(CellFormat(gs.wrapStrategy, gs.verticalAlignment, gs.horizontalAlignment, color))
  }

  /** Field-mask paths of the dimension properties that differ from their zero value. */
  function DimensionPaths(p: DimensionProperties): set<string> {
    (if p.hiddenByUser then {"hiddenByUser"} else {}) + (if p.pixelSize != 0 then {"pixelSize"} else {})
  }

  /** Field-mask paths of the sheet properties that differ from their zero
      value; the sheet id selects the sheet and is not a path. */
  function SheetPaths(p: SheetProperties): set<string> {
    (if p.title != "" then {"title"} else {})
    + (if p.gridProperties.rowCount != 0 then {"gridProperties.rowCount"} else {})
    + (if p.gridProperties.columnCount != 0 then {"gridProperties.columnCount"} else {})
    + (if p.gridProperties.frozenRowCount != 0 then {"gridProperties.frozenRowCount"} else {})
  }

  /** Field-mask paths of the cell parts that differ from their zero value. */
  function CellPaths(c: CellData): set<string> {
    (if c.userEnteredValue.Some? then {"userEnteredValue"} else {})
    + match c.userEnteredFormat
      case None => {}
      case Some(f) =>
        (if f.wrapStrategy != "" then {"userEnteredFormat(wrapStrategy)"} else {})
        + (if f.verticalAlignment != "" then {"userEnteredFormat(verticalAlignment)"} else {})
        + (if f.horizontalAlignment != "" then {"userEnteredFormat(horizontalAlignment)"} else {})
        + (if f.backgroundColor.Some? then {"userEnteredFormat(backgroundColor)"} else {})
  }

  /** Field-mask paths of the creator's format settings that are non-empty. */
  function CreatorPaths(gs: Creator): set<string> {
    (if gs.wrapStrategy != "" then {"userEnteredFormat(wrapStrategy)"} else {})
    + (if gs.verticalAlignment != "" then {"userEnteredFormat(verticalAlignment)"} else {})
    + (if gs.horizontalAlignment != "" then {"userEnteredFormat(horizontalAlignment)"} else {})
  }

  /** Field-mask paths of a background colour, set only when one is given. */
  function BackgroundPaths(color: Option<Color>): set<string> {
    if color.Some? then {"userEnteredFormat(backgroundColor)"} else {}
  }

  /** The column count of a grid: the length of its longest row, 0 for no rows. */
  ghost predicate IsMaxRowLength<T>(grid: seq<seq<T>>, n: int) {
    && (forall i :: 0 <= i < |grid| ==> |grid[i]| <= n)
    && (|grid| == 0 ==> n == 0)
    && (|grid| > 0 ==> exists i :: 0 <= i < |grid| && |grid[i]| == n)
  }

  /** The running maximum the grid builders keep, row by row: a longer row
      replaces the count, a row of equal or shorter length leaves it. */
  function MaxRowLength<T>(grid: seq<seq<T>>): (n: nat)
    ensures IsMaxRowLength(grid, n)
  {
    if |grid| == 0 then 0
    else
      var prefix := grid[..|grid| - 1];
      var rest := MaxRowLength(prefix);
      var last := |grid[|grid| - 1]|;
      assert forall i :: 0 <= i < |prefix| ==> prefix[i] == grid[i];
      if last > rest then last
      else
        assert |prefix| == 0 ==> |grid[0]| == rest;
        rest
  }

  /* ---------- Cells and rows ---------- */

  /** The cell all typed cell builders share: the given value, the creator's
      format and the given background. */
  function NewCell(gs: Creator, value: ExtendedValue, color: Option<Color>): (c: CellData)
    ensures c.userEnteredValue == Some(value)
    ensures FormattedBy(gs, c, color)
    ensures CellPaths(c) == {"userEnteredValue"} + CreatorPaths(gs) + BackgroundPaths(color)
  {
    CellData(Some(value), Some(CellFormat(gs.wrapStrategy, gs.verticalAlignment, gs.horizontalAlignment, color)))
  }

  function NewStringCellWithBackground(gs: Creator, value: string, color: Option<Color>): (c: CellData)
    ensures CellString(c) == Some(value)
    ensures FormattedBy(gs, c, color)
    ensures CellPaths(c) == {"userEnteredValue"} + CreatorPaths(gs) + BackgroundPaths(color)
  {
    NewCell(gs, StringValue(value), color)
  }

  function NewStringCell(gs: Creator, value: string): (c: CellData)
    ensures CellString(c) == Some(value)
    ensures FormattedBy(gs, c, None)
    ensures CellPaths(c) == {"userEnteredValue"} + CreatorPaths(gs) + BackgroundPaths(None)
  {
    NewStringCellWithBackground(gs, value, None)
  }

  function NewNumberCellWithBackground(gs: Creator, value: Float64, color: Option<Color>): (c: CellData)
    ensures c.userEnteredValue == Some(NumberValue(value))
    ensures CellString(c) == None
    ensures FormattedBy(gs, c, color)
    ensures CellPaths(c) == {"userEnteredValue"} + CreatorPaths(gs) + BackgroundPaths(color)
  {
    NewCell(gs, NumberValue(value), color)
  }

  function NewNumberCell(gs: Creator, value: Float64): (c: CellData)
    ensures c.userEnteredValue == Some(NumberValue(value))
    ensures CellString(c) == None
    ensures FormattedBy(gs, c, None)
    ensures CellPaths(c) == {"userEnteredValue"} + CreatorPaths(gs) + BackgroundPaths(None)
  {
    NewNumberCellWithBackground(gs, value, None)
  }

  function NewBoolCellWithBackground(gs: Creator, value: bool, color: Option<Color>): (c: CellData)
    ensures c.userEnteredValue == Some(BoolValue(value))
    ensures CellString(c) == None
    ensures FormattedBy(gs, c, color)
    ensures CellPaths(c) == {"userEnteredValue"} + CreatorPaths(gs) + BackgroundPaths(color)
  {
    NewCell(gs, BoolValue(value), color)
  }

  function NewBoolCell(gs: Creator, value: bool): (c: CellData)
    ensures c.userEnteredValue == Some(BoolValue(value))
    ensures CellString(c) == None
    ensures FormattedBy(gs, c, None)
    ensures CellPaths(c) == {"userEnteredValue"} + CreatorPaths(gs) + BackgroundPaths(None)
  {
    NewBoolCellWithBackground(gs, value, None)
  }

  /** One string cell per input string, in order, all with the same background. */
  method NewStringRowWithBackground(gs: Creator, data: seq<string>, color: Option<Color>) returns (row: seq<CellData>)
    ensures |row| == |data|
    ensures forall i :: 0 <= i < |row| ==> CellString(row[i]) == Some(data[i]) && FormattedBy(gs, row[i], color)
  {
    row := [];
    for i := 0 to |data|
      invariant |row| == i
      invariant forall k :: 0 <= k < i ==> CellString(row[k]) == Some(data[k]) && FormattedBy(gs, row[k], color)
    {
      row := row + [NewStringCellWithBackground(gs, data[i], color)];
    }
  }

  /** One string cell per input string, in order, with no background. */
  method NewStringRow(gs: Creator, data: seq<string>) returns (row: seq<CellData>)
    ensures |row| == |data|
    ensures forall i :: 0 <= i < |row| ==> CellString(row[i]) == Some(data[i]) && FormattedBy(gs, row[i], None)
  {
    row := NewStringRowWithBackground(gs, data, None);
  }

  /** A string cell from the default creator is wrapped, vertically
      centred and left aligned. */
  lemma DefaultStringCellFormat(value: string)
    ensures NewStringCell(DefaultCreator, value).userEnteredFormat == Some(CellFormat("WRAP", "MIDDLE", "LEFT", None))
    ensures CellPaths(NewStringCell(DefaultCreator, value)) ==
      {"userEnteredValue", "userEnteredFormat(wrapStrategy)", "userEnteredFormat(verticalAlignment)", "userEnteredFormat(horizontalAlignment)"}
  {
  }

  /* ---------- Sheets ---------- */

  /** The sheet both grid builders return: one block of grid data, the row
      count and column count given, and the sheet id only when positive. */
  function NewSheet(title: string, rows: seq<RowData>, columnCount: nat, sheetId: int): (sh: Sheet)
    ensures sh.properties.title == title
    ensures sh.properties.gridProperties == GridProperties(|rows|, columnCount, 0)
    ensures sh.data == [GridData(rows)]
    ensures sheetId > 0 ==> sh.properties.sheetId == sheetId
    ensures sheetId <= 0 ==> sh.properties.sheetId == 0
  {
    var sh := Sheet(SheetProperties(0, title, GridProperties(|rows|, columnCount, 0)), [GridData(rows)]);
    if sheetId > 0 then sh.(properties := sh.properties.(sheetId := sheetId)) else sh
  }

  /** A sheet holding one string cell per input string: row count is the
      number of rows, column count the longest row. */
  method NewSheetFromStringGrid(gs: Creator, title: string, data: seq<seq<string>>, sheetId: int) returns (sh: Sheet)
    ensures sh.properties.title == title
    ensures sh.properties.gridProperties.rowCount == |data|
    ensures IsMaxRowLength(data, sh.properties.gridProperties.columnCount)
    ensures sh.properties.gridProperties.frozenRowCount == 0
    ensures sh.properties.sheetId == if sheetId > 0 then sheetId else 0
    ensures |sh.data| == 1 && |sh.data[0].rowData| == |data|
    ensures forall i :: 0 <= i < |data| ==> |sh.data[0].rowData[i].values| == |data[i]|
    ensures forall i, j :: 0 <= i < |data| && 0 <= j < |data[i]| ==>
      CellString(sh.data[0].rowData[i].values[j]) == Some(data[i][j])
      && FormattedBy(gs, sh.data[0].rowData[i].values[j], None)
  {
    var rows: seq<RowData> := [];
    var columnCount: nat := 0;
    for i := 0 to |data|
      invariant |rows| == i
      invariant columnCount == MaxRowLength(data[..i])
      invariant forall k :: 0 <= k < i ==> |rows[k].values| == |data[k]|
      invariant forall k, j :: 0 <= k < i && 0 <= j < |data[k]| ==>
        CellString(rows[k].values[j]) == Some(data[k][j]) && FormattedBy(gs, rows[k].values[j], None)
    {
      assert data[..i + 1][..i] == data[..i];
      if |data[i]| > columnCount {
        columnCount := |data[i]|;
      }
      var values := NewStringRow(gs, data[i]);
      rows := rows + [RowData(values)];
    }
    assert data[..|data|] == data;
    sh := NewSheet(title, rows, columnCount, sheetId);
  }

  /** A sheet holding the given cells verbatim: row count is the number of
      rows, column count the longest row. */
  method NewSheetFromCellGrid(title: string, data: seq<seq<CellData>>, sheetId: int) returns (sh: Sheet)
    ensures sh.properties.title == title
    ensures sh.properties.gridProperties.rowCount == |data|
    ensures IsMaxRowLength(data, sh.properties.gridProperties.columnCount)
    ensures sh.properties.gridProperties.frozenRowCount == 0
    ensures sh.properties.sheetId == if sheetId > 0 then sheetId else 0
    ensures |sh.data| == 1 && |sh.data[0].rowData| == |data|
    ensures forall i :: 0 <= i < |data| ==> sh.data[0].rowData[i].values == data[i]
  {
    var rows: seq<RowData> := [];
    var columnCount: nat := 0;
    for i := 0 to |data|
      invariant |rows| == i
      invariant columnCount == MaxRowLength(data[..i])
      invariant forall k :: 0 <= k < i ==> rows[k].values == data[k]
    {
      assert data[..i + 1][..i] == data[..i];
      if |data[i]| > columnCount {
        columnCount := |data[i]|;
      }
      var values: seq<CellData> := [];
      for j := 0 to |data[i]|
        invariant values == data[i][..j]
      {
        values := values + [data[i][j]];
      }
      assert values == data[i];
      rows := rows + [RowData(values)];
    }
    assert data[..|data|] == data;
    sh := NewSheet(title, rows, columnCount, sheetId);
  }

  /* ---------- Dimension and format requests ---------- */

  /** Hides the columns [columnIndexStart, columnIndexEnd) of a sheet. */
  function HideColumns(sheetId: int, columnIndexStart: int, columnIndexEnd: int): (r: Request)
    ensures r.UpdateDimensionProperties?
    ensures r.dimensionRange == DimensionRange(sheetId, "COLUMNS", columnIndexStart, columnIndexEnd)
    ensures r.dimensionProperties.hiddenByUser
    ensures r.fields == "hiddenByUser"
    ensures DimensionPaths(r.dimensionProperties) == {r.fields}
  {
    UpdateDimensionProperties(
      DimensionRange(sheetId, "COLUMNS", columnIndexStart, columnIndexEnd),
      DimensionProperties(true, 0),
      "hiddenByUser")
  }

  /** Freezes the first frozenNumber rows of a sheet. */
  function FreezeRows(sheetId: int, frozenNumber: int): (r: Request)
    ensures r.UpdateSheetProperties?
    ensures r.sheetProperties.sheetId == sheetId
    ensures r.sheetProperties.gridProperties.frozenRowCount == frozenNumber
    ensures r.fields == "gridProperties.frozenRowCount"
    ensures SheetPaths(r.sheetProperties) <= {r.fields}
    ensures frozenNumber != 0 ==> SheetPaths(r.sheetProperties) == {r.fields}
  {
    UpdateSheetProperties(SheetProperties(sheetId, "", GridProperties(0, 0, frozenNumber)), "gridProperties.frozenRowCount")
  }

  /** The pixel-size request both width and height updates build. */
  function UpdatePixelSize(sheetId: int, dimension: string, indexStart: int, indexEnd: int, size: int): (r: Request)
    ensures r.UpdateDimensionProperties?
    ensures r.dimensionRange == DimensionRange(sheetId, dimension, indexStart, indexEnd)
    ensures r.dimensionProperties.pixelSize == size
    ensures r.fields == "pixelSize"
    ensures DimensionPaths(r.dimensionProperties) <= {r.fields}
    ensures size != 0 ==> DimensionPaths(r.dimensionProperties) == {r.fields}
  {
    UpdateDimensionProperties(DimensionRange(sheetId, dimension, indexStart, indexEnd), DimensionProperties(false, size), "pixelSize")
  }

  /** Sets the width of the columns [columnIndexStart, columnIndexEnd). */
  function UpdateColumnWidth(sheetId: int, columnIndexStart: int, columnIndexEnd: int, width: int): (r: Request)
    ensures r.UpdateDimensionProperties?
    ensures r.dimensionRange == DimensionRange(sheetId, "COLUMNS", columnIndexStart, columnIndexEnd)
    ensures r.dimensionProperties.pixelSize == width
    ensures r.fields == "pixelSize"
    ensures DimensionPaths(r.dimensionProperties) <= {r.fields}
    ensures width != 0 ==> DimensionPaths(r.dimensionProperties) == {r.fields}
  {
    UpdatePixelSize(sheetId, "COLUMNS", columnIndexStart, columnIndexEnd, width)
  }

  /** Sets the height of the rows [rowIndexStart, rowIndexEnd). */
  function UpdateRowHeight(sheetId: int, rowIndexStart: int, rowIndexEnd: int, height: int): (r: Request)
    ensures r.UpdateDimensionProperties?
    ensures r.dimensionRange == DimensionRange(sheetId, "ROWS", rowIndexStart, rowIndexEnd)
    ensures r.dimensionProperties.pixelSize == height
    ensures r.fields == "pixelSize"
    ensures DimensionPaths(r.dimensionProperties) <= {r.fields}
    ensures height != 0 ==> DimensionPaths(r.dimensionProperties) == {r.fields}
  {
    UpdatePixelSize(sheetId, "ROWS", rowIndexStart, rowIndexEnd, height)
  }

  /** Paints every cell of a range with one background colour. */
  function UpdateCellBackground(gridRange: Option<GridRange>, color: Option<Color>): (r: Request)
    ensures r.RepeatCell?
    ensures r.gridRange == gridRange
    ensures r.cell.userEnteredFormat.Some? && r.cell.userEnteredFormat.value.backgroundColor == color
    ensures r.fields == "userEnteredFormat(backgroundColor)"
    ensures CellPaths(r.cell) <= {r.fields}
    ensures color.Some? ==> CellPaths(r.cell) == {r.fields}
  {
    RepeatCell(gridRange, CellData(None, Some(CellFormat("", "", "", color))), "userEnteredFormat(backgroundColor)")
  }
}
