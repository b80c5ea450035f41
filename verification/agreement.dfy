/** The Go and Python builders of column-width, freeze-row and cell-background
    requests agree: the same sheet, dimension and indices where the request
    has them, and the same value and field mask. Each background builder
    passes its own range through unchanged; the two range types are not
    compared. */
module Agreement {
  import opened Wrappers
  import opened Values
  import GSheet
  import GSheetCreator

  /** Both column-width builders address the same columns with the same
      pixel size and mask, and a non-zero width sets the same paths. */
  lemma ColumnWidthAgrees(sheetId: int, columnIndexStart: int, columnIndexEnd: int, width: int)
    ensures var g := GSheet.UpdateColumnWidth(sheetId, columnIndexStart, columnIndexEnd, width);
            var p := GSheetCreator.UpdateColumnWidth(sheetId, columnIndexStart, columnIndexEnd, width);
            && g.dimensionRange.sheetId == p.dimensionRange.sheetId
            && g.dimensionRange.dimension == p.dimensionRange.dimension
            && g.dimensionRange.startIndex == p.dimensionRange.startIndex
            && g.dimensionRange.endIndex == p.dimensionRange.endIndex
            && g.dimensionProperties.pixelSize == p.dimensionProperties.pixelSize
            && g.fields == p.fields
            && (width != 0 ==> GSheet.DimensionPaths(g.dimensionProperties) == GSheetCreator.DimensionPaths(p.dimensionProperties))
  {
  }

  /** Both freeze builders target the same sheet with the same mask; they set
      the same paths for a non-zero count, while for 0 the Go struct drops
      the zero field and the Python dict still names it. */
  lemma FreezeRowsAgree(sheetId: int, frozenNumber: int)
    ensures var g := GSheet.FreezeRows(sheetId, frozenNumber);
            var p := GSheetCreator.FreezeRows(sheetId, frozenNumber);
            && p.sheetProperties.sheetId == Some(g.sheetProperties.sheetId)
            && g.fields == p.fields
            && (frozenNumber != 0 ==> GSheet.SheetPaths(g.sheetProperties) == GSheetCreator.SheetPaths(p.sheetProperties))
            && (frozenNumber == 0 ==> GSheet.SheetPaths(g.sheetProperties) == {} != GSheetCreator.SheetPaths(p.sheetProperties))
  {
  }

  /** Both background builders paint with the same colour under the same
      mask and set the same cell paths; each carries the range it was given. */
  lemma CellBackgroundAgrees(goRange: Option<GSheet.GridRange>, pyRange: GSheetCreator.GridRange, color: Color)
    ensures var g := GSheet.UpdateCellBackground(goRange, Some(color));
            var p := GSheetCreator.UpdateCellBackground(pyRange, color);
            && g.cell.userEnteredFormat.value.backgroundColor == p.cell.userEnteredFormat.value.backgroundColor
            && g.gridRange == goRange
            && p.cellRange == pyRange
            && g.fields == p.fields
            && GSheet.CellPaths(g.cell) == GSheetCreator.CellPaths(p.cell)
  {
  }
}
