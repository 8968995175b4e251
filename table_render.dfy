/**
 * Fuel\Common\Table\Render: turns a table's body, header and footer rows into rendered
 * rows, and hands the three lists to a container renderer.
 *
 * The abstract methods a subclass supplies (cell, row, headerCell, headerRow, footerCell,
 * footerRow, container) are the function fields of a `Renderer`.
 */
module TableRender {

  /** A table row: its cells, in order. */
  datatype Row<C> = Row(cells: seq<C>)

  /** The three sections of a table, as its getRows(), getHeaderRows() and getFooterRows() give them. */
  datatype Table<C> = Table(rows: seq<Row<C>>, headerRows: seq<Row<C>>, footerRows: seq<Row<C>>)

  /** The abstract methods of a Render subclass: cells and rows render to O, the table to T. */
  datatype Renderer<!C, !O, T> = Renderer(
    cell: C -> O,
    row: (Row<C>, seq<O>) -> O,
    headerCell: C -> O,
    headerRow: (Row<C>, seq<O>) -> O,
    footerCell: C -> O,
    footerRow: (Row<C>, seq<O>) -> O,
    container: (Table<C>, seq<O>, seq<O>, seq<O>) -> T)

  /** The cells of one row, each rendered by `cell`, in order. */
  function RenderedCells<C, O>(cells: seq<C>, cell: C -> O): (r: seq<O>)
    ensures |r| == |cells|
    ensures forall j :: 0 <= j < |cells| ==> r[j] == cell(cells[j])
  {
    seq(|cells|, j requires 0 <= j < |cells| => cell(cells[j]))
  }

  /**
   * A section rendered: one output per row, in order, each made by `row` from the row and
   * its rendered cells.
   */
  function RenderedSection<C, O>(rows: seq<Row<C>>, cell: C -> O, row: (Row<C>, seq<O>) -> O): (r: seq<O>)
    ensures |r| == |rows|
    ensures forall i :: 0 <= i < |rows| ==> r[i] == row(rows[i], RenderedCells(rows[i].cells, cell))
  {
    seq(|rows|, i requires 0 <= i < |rows| => row(rows[i], RenderedCells(rows[i].cells, cell)))
  }

  /**
   * The nested foreach loops shared by buildRows(), buildHeaders() and buildFooters(): for
   * each row the cells are collected into a list, then the rendered row is appended.
   */
  method BuildSection<C, O>(rows: seq<Row<C>>, cell: C -> O, row: (Row<C>, seq<O>) -> O)
    returns (out: seq<O>)
    ensures |out| == |rows|
    ensures forall i :: 0 <= i < |rows| ==> out[i] == row(rows[i], RenderedCells(rows[i].cells, cell))
  {
    out := [];
    var i := 0;
    while i < |rows|
      invariant 0 <= i <= |rows|
      invariant |out| == i
      invariant forall k :: 0 <= k < i ==> out[k] == row(rows[k], RenderedCells(rows[k].cells, cell))
    {
      var cells: seq<O> := [];
      var j := 0;
      while j < |rows[i].cells|
        invariant 0 <= j <= |rows[i].cells|
        invariant |cells| == j
        invariant forall m :: 0 <= m < j ==> cells[m] == cell(rows[i].cells[m])
      {
        cells := cells + [cell(rows[i].cells[j])];
        j := j + 1;
      }
      assert cells == RenderedCells(rows[i].cells, cell);
      out := out + [row(rows[i], cells)];
      i := i + 1;
    }
  }

  /** buildRows(): the body rows through `cell` and `row`. */
  method BuildRows<C, O, T>(r: Renderer<C, O, T>, table: Table<C>) returns (out: seq<O>)
    ensures out == RenderedSection(table.rows, r.cell, r.row)
  {
    out := BuildSection(table.rows, r.cell, r.row);
  }

  /** buildHeaders(): the header rows through `headerCell` and `headerRow` only. */
  method BuildHeaders<C, O, T>(r: Renderer<C, O, T>, table: Table<C>) returns (out: seq<O>)
    ensures out == RenderedSection(table.headerRows, r.headerCell, r.headerRow)
  {
    out := BuildSection(table.headerRows, r.headerCell, r.headerRow);
  }

  /** buildFooters(): the footer rows through `footerCell` and `footerRow` only. */
  method BuildFooters<C, O, T>(r: Renderer<C, O, T>, table: Table<C>) returns (out: seq<O>)
    ensures out == RenderedSection(table.footerRows, r.footerCell, r.footerRow)
  {
    out := BuildSection(table.footerRows, r.footerCell, r.footerRow);
  }

  /**
   * renderTable(): the container applied to the table and its rendered body, header and
   * footer rows, in that argument order.
   */
  method RenderTable<C, O, T>(r: Renderer<C, O, T>, table: Table<C>) returns (result: T)
    ensures result == r.container(table,
                                  RenderedSection(table.rows, r.cell, r.row),
                                  RenderedSection(table.headerRows, r.headerCell, r.headerRow),
                                  RenderedSection(table.footerRows, r.footerCell, r.footerRow))
  {
    var rows := BuildRows(r, table);
    var headerRows := BuildHeaders(r, table);
    var footerRows := BuildFooters(r, table);
    result := r.container(table, rows, headerRows, footerRows);
  }

  /** Rendering a section row by row: the rows of a concatenation render to the concatenation. */
  lemma SectionSplits<C, O>(a: seq<Row<C>>, b: seq<Row<C>>, cell: C -> O, row: (Row<C>, seq<O>) -> O)
    ensures RenderedSection(a + b, cell, row) == RenderedSection(a, cell, row) + RenderedSection(b, cell, row)
  {
    var l, x, y := RenderedSection(a + b, cell, row), RenderedSection(a, cell, row), RenderedSection(b, cell, row);
    forall i | 0 <= i < |l|
      ensures l[i] == (x + y)[i]
    {
      if i >= |a| {
        assert (a + b)[i] == b[i - |a|];
      }
    }
  }
}
