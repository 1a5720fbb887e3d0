/** The quote document: what `generateQuotePDF` draws and where, page by page, and the
    geometry of the alternative image export. The drawing library is not modelled; a
    document here is the list of positioned texts and rules it is asked to draw, each tagged
    with the page (counted from 0) that was current at the time. */
module PdfExport {
  import opened Domain
  import opened Seqs
  import opened Text

  /** The locale formatting the export relies on and which is not modelled: amounts with
      digit grouping and two decimals, `Number.toString`, and long dates. */
  datatype Locale = Locale(
    groupedAmount: real -> string, numberText: real -> string, longDate: string -> string)

  /** `formatCurrency`: the lempira prefix "L " followed by the locale's rendering. */
  function FormatCurrency(loc: Locale, amount: real): (r: string)
    ensures |r| >= 2 && r[..2] == "L "
  {
    "L " + loc.groupedAmount(amount)
  }

  /** The quote number shown on the document: `id.slice(-8).toUpperCase()`. */
  function QuoteNumber(id: string): (r: string)
    ensures |r| == if |id| <= 8 then |id| else 8
    ensures forall i :: 0 <= i < |r| ==> r[i] == UpperChar(id[|id| - |r| + i])
  {
    ToUpper(LastN(id, 8))
  }

  /** The saved file's name:
      `Cotizacion_${clientName.replace(/\s+/g, '_')}_${id.slice(-8)}.pdf`. The id's tail
      is not upper-cased here, unlike the quote number. */
  function FileName(clientName: string, id: string): (r: string)
    ensures |r| >= 16 && r[..11] == "Cotizacion_" && r[|r| - 4..] == ".pdf"
    ensures var tail := LastN(id, 8);
      |r| >= 16 + |tail| && r[|r| - 4 - |tail|..|r| - 4] == tail && r[|r| - 5 - |tail|] == '_'
    ensures NoWhitespace(id) ==> NoWhitespace(r)
  {
    var name := CollapseWhitespace(clientName);
    var tail := LastN(id, 8);
    FileNameShape(name, tail);
    assert NoWhitespace(id) ==> NoWhitespace(tail) by {
      if NoWhitespace(id) {
        assert forall i :: 0 <= i < |tail| ==> tail[i] == id[|id| - |tail| + i];
      }
    }
    "Cotizacion_" + name + "_" + tail + ".pdf"
  }

  lemma FileNameShape(name: string, tail: string)
    requires NoWhitespace(name)
    ensures var r := "Cotizacion_" + name + "_" + tail + ".pdf";
      && |r| >= 16 + |tail| && r[..11] == "Cotizacion_" && r[|r| - 4..] == ".pdf"
      && r[|r| - 4 - |tail|..|r| - 4] == tail && r[|r| - 5 - |tail|] == '_'
      && (NoWhitespace(tail) ==> NoWhitespace(r))
  {
    var head := "Cotizacion_" + name + "_";
    var r := head + tail + ".pdf";
    assert NoWhitespace("Cotizacion_") && NoWhitespace("_") && NoWhitespace(".pdf");
    assert NoWhitespace(head) by {
      NoWhitespaceConcat("Cotizacion_", name);
      NoWhitespaceConcat("Cotizacion_" + name, "_");
    }
    if NoWhitespace(tail) {
      NoWhitespaceConcat(head, tail);
      NoWhitespaceConcat(head + tail, ".pdf");
    }
    assert r[..11] == head[..11];
    assert r[|r| - 5 - |tail|] == head[|head| - 1];
  }

  /** A client name without whitespace appears in the file name as it is. */
  lemma FileNameOfPlainName(clientName: string, id: string)
    requires NoWhitespace(clientName)
    ensures FileName(clientName, id) == "Cotizacion_" + clientName + "_" + LastN(id, 8) + ".pdf"
  {
    CollapseKeepsPlainText(clientName);
  }

  // ---------------------------------------------------------------------------------
  // Page geometry

  /** The page size the drawing library reports (A4 portrait in millimetres: 210 x 297). */
  datatype PageSize = PageSize(width: real, height: real)

  const Margin: real := 20.0
  /** Vertical distance between two table rows. */
  const RowHeight: real := 8.0
  /** A row starts a new page when the cursor is lower than `height - BottomReserve`. */
  const BottomReserve: real := 50.0
  /** The footer sits this far above the bottom edge of the last page. */
  const FooterRise: real := 25.0

  const ColumnWidths: seq<real> := [80.0, 25.0, 25.0, 25.0, 35.0]

  /** The column x-positions exactly as the table code adds them up. */
  const ColumnPositions: seq<real> := [
    Margin,
    Margin + ColumnWidths[0],
    Margin + ColumnWidths[0] + ColumnWidths[1],
    Margin + ColumnWidths[0] + ColumnWidths[1] + ColumnWidths[2],
    Margin + ColumnWidths[0] + ColumnWidths[1] + ColumnWidths[2] + ColumnWidths[3]
  ]

  function Sum(s: seq<real>): real {
    if s == [] then 0.0 else Sum(s[..|s| - 1]) + s[|s| - 1]
  }

  /** Column i starts at the margin plus the widths of the columns before it, which puts
      the five columns at 20, 100, 125, 150 and 175, from left to right. */
  lemma ColumnsArePrefixSums()
    ensures |ColumnPositions| == 5
    ensures forall i :: 0 <= i < 5 ==> ColumnPositions[i] == Margin + Sum(ColumnWidths[..i])
    ensures ColumnPositions == [20.0, 100.0, 125.0, 150.0, 175.0]
    ensures forall i, j :: 0 <= i < j < 5 ==> ColumnPositions[i] < ColumnPositions[j]
  {
    var w := ColumnWidths;
    assert w[..1][..0] == [] && w[..2][..1] == w[..1];
    assert w[..3][..2] == w[..2] && w[..4][..3] == w[..3];
    assert Sum(w[..0]) == 0.0;
    assert Sum(w[..1]) == 80.0;
    assert Sum(w[..2]) == 105.0;
    assert Sum(w[..3]) == 130.0;
    assert Sum(w[..4]) == 155.0;
  }

  // ---------------------------------------------------------------------------------
  // Documents

  datatype Align = AlignLeft | AlignCenter

  datatype Element =
    | Label(page: nat, x: real, y: real, text: string, align: Align)
    | Rule(page: nat, x1: real, y1: real, x2: real, y2: real)

  /** The current page and the vertical position at which the next line will be drawn. */
  datatype Cursor = Cursor(page: nat, y: real)

  datatype Pdf = Pdf(elements: seq<Element>, pageCount: nat, fileName: string)

  // ---------------------------------------------------------------------------------
  // Pagination of the table

  /** The check made before each row: past `height - 50`, a new page, cursor at the margin. */
  function BreakBefore(c: Cursor, size: PageSize): (r: Cursor)
    ensures r == c || r == Cursor(c.page + 1, Margin)
    ensures r.page == c.page + 1 <==> c.y > size.height - BottomReserve
  {
    if c.y > size.height - BottomReserve then Cursor(c.page + 1, Margin) else c
  }

  /** The cursor after `n` rows have been drawn from `start`. */
  function CursorAfterRows(start: Cursor, n: nat, size: PageSize): Cursor
    decreases n, 0
  {
    if n == 0 then start
    else
      var at := RowPosition(start, n - 1, size);
      Cursor(at.page, at.y + RowHeight)
  }

  /** Where row `i` (counted from 0) is drawn. */
  function RowPosition(start: Cursor, i: nat, size: PageSize): Cursor
    decreases i, 1
  {
    BreakBefore(CursorAfterRows(start, i, size), size)
  }

  /** Two consecutive rows are either on the same page, 8 apart, or the second one opens the
      next page at the margin; it opens a new page exactly when 8 below the first row is
      past `height - 50`. */
  lemma NextRowPosition(start: Cursor, i: nat, size: PageSize)
    ensures var a, b := RowPosition(start, i, size), RowPosition(start, i + 1, size);
      || (b.page == a.page && b.y == a.y + RowHeight)
      || (b.page == a.page + 1 && b.y == Margin)
    ensures var a, b := RowPosition(start, i, size), RowPosition(start, i + 1, size);
      b.page == a.page + 1 <==> a.y + RowHeight > size.height - BottomReserve
  {
  }

  /** When the margin itself is above the break line, no row is ever drawn below it. */
  lemma RowsStayAboveReserve(start: Cursor, i: nat, size: PageSize)
    requires size.height - BottomReserve >= Margin
    ensures RowPosition(start, i, size).y <= size.height - BottomReserve
  {
  }

  /** Drawing rows never goes back a page and adds at most one page per row. */
  lemma {:induction false} PagesPerRow(start: Cursor, n: nat, size: PageSize)
    ensures start.page <= CursorAfterRows(start, n, size).page <= start.page + n
    ensures forall i :: 0 <= i < n ==>
              start.page <= RowPosition(start, i, size).page <= CursorAfterRows(start, n, size).page
  {
    if n > 0 {
      PagesPerRow(start, n - 1, size);
    }
  }

  /** Rows that fit go down the first page 8 apart: as long as row i is still above the
      break line, the rows are drawn on the start page at `start.y + 8i`. */
  lemma {:induction false} RowsOnStartPage(start: Cursor, i: nat, size: PageSize)
    requires start.y + RowHeight * (i as real) <= size.height - BottomReserve
    ensures RowPosition(start, i, size) == Cursor(start.page, start.y + RowHeight * (i as real))
  {
    if i > 0 {
      RowsOnStartPage(start, i - 1, size);
    }
  }

  /** The first row that does not fit opens the next page at the margin. */
  lemma FirstOverflowRow(start: Cursor, i: nat, size: PageSize)
    requires i > 0
    requires start.y + RowHeight * ((i - 1) as real) <= size.height - BottomReserve
    requires start.y + RowHeight * (i as real) > size.height - BottomReserve
    ensures RowPosition(start, i, size) == Cursor(start.page + 1, Margin)
  {
    RowsOnStartPage(start, i - 1, size);
  }

  // ---------------------------------------------------------------------------------
  // The document's parts

  /** The five cells of one table row: name, quantity, unit, unit cost and line total. */
  function RowCells(item: QuoteLineItem, at: Cursor, loc: Locale): (r: seq<Element>)
    ensures |r| == 5
    ensures forall k :: 0 <= k < 5 ==>
              r[k].Label? && r[k].page == at.page && r[k].y == at.y && r[k].x == ColumnPositions[k]
  {
    [ Label(at.page, ColumnPositions[0], at.y, item.materialName, AlignLeft),
      Label(at.page, ColumnPositions[1], at.y, loc.numberText(item.quantity), AlignLeft),
      Label(at.page, ColumnPositions[2], at.y, item.unit, AlignLeft),
      Label(at.page, ColumnPositions[3], at.y, FormatCurrency(loc, item.unitCost), AlignLeft),
      Label(at.page, ColumnPositions[4], at.y, FormatCurrency(loc, item.totalCost), AlignLeft) ]
  }

  /** The table body: the rows of `items`, in order, as the `forEach` draws them. */
  function TableRows(items: seq<QuoteLineItem>, start: Cursor, size: PageSize, loc: Locale): (r: seq<Element>)
    ensures |r| == 5 * |items|
    decreases |items|
  {
    if items == [] then []
    else
      var n := |items| - 1;
      TableRows(items[..n], start, size, loc) + RowCells(items[n], RowPosition(start, n, size), loc)
  }

  lemma TableRowsSnoc(items: seq<QuoteLineItem>, start: Cursor, size: PageSize, loc: Locale, i: nat)
    requires i < |items|
    ensures TableRows(items[..i + 1], start, size, loc)
            == TableRows(items[..i], start, size, loc) + RowCells(items[i], RowPosition(start, i, size), loc)
  {
    assert items[..i + 1][..i] == items[..i];
  }

  /** Row i of the table is the five cells of item i, drawn where RowPosition puts it; so
      every item gets exactly one row, in the quote's order. */
  lemma {:induction false} TableRowAt(items: seq<QuoteLineItem>, start: Cursor, size: PageSize, loc: Locale, i: nat)
    requires i < |items|
    ensures TableRows(items, start, size, loc)[5 * i..5 * i + 5]
            == RowCells(items[i], RowPosition(start, i, size), loc)
    decreases |items|
  {
    var n := |items| - 1;
    var prefix := TableRows(items[..n], start, size, loc);
    var cells := RowCells(items[n], RowPosition(start, n, size), loc);
    assert TableRows(items, start, size, loc) == prefix + cells;
    if i < n {
      TableRowAt(items[..n], start, size, loc, i);
      assert items[..n][i] == items[i];
      SliceOfLeft(prefix, cells, 5 * i, 5 * i + 5);
    } else {
      SliceOfRight(prefix, cells, 5 * i, 5 * i + 5);
      assert cells[0..5] == cells;
    }
  }

  /** Every cell of the table is on a page between the start page and the page where the
      table ends. */
  lemma {:induction false} TableRowsPages(items: seq<QuoteLineItem>, start: Cursor, size: PageSize, loc: Locale)
    ensures OnPagesBelow(TableRows(items, start, size, loc), CursorAfterRows(start, |items|, size).page + 1)
    decreases |items|
  {
    if items != [] {
      var n := |items| - 1;
      var prefix := TableRows(items[..n], start, size, loc);
      var at := RowPosition(start, n, size);
      var cells := RowCells(items[n], at, loc);
      var last := CursorAfterRows(start, |items|, size).page + 1;
      TableRowsPages(items[..n], start, size, loc);
      assert CursorAfterRows(start, n, size).page <= at.page == last - 1;
      OnPagesBelowWider(prefix, CursorAfterRows(start, n, size).page + 1, last);
      OnPagesBelowConcat(prefix, cells, last);
    }
  }

  /** The elements of the first page above the table; a project line is drawn only when
      the description is not empty, and pushes everything below it down by 10. */
  function HeaderElements(q: Quote, size: PageSize, loc: Locale): seq<Element> {
    var d := if q.projectDescription != "" then 10.0 else 0.0;
    ClientBlock(q, size)
    + (if q.projectDescription != ""
       then [Label(0, Margin, 77.0, "Proyecto: " + q.projectDescription, AlignLeft)]
       else [])
    + TableHead(q, size, loc, 77.0 + d)
  }

  /** The title, the rule under it, and the client's name. */
  function ClientBlock(q: Quote, size: PageSize): seq<Element> {
    [ Label(0, size.width / 2.0, 20.0, "COTIZACIÓN", AlignCenter),
      Rule(0, Margin, 35.0, size.width - Margin, 35.0),
      Label(0, Margin, 55.0, "INFORMACIÓN DEL CLIENTE", AlignLeft),
      Label(0, Margin, 67.0, "Cliente: " + q.clientName, AlignLeft) ]
  }

  /** The date, the quote number and the column headings, from the date line at `y` down. */
  function TableHead(q: Quote, size: PageSize, loc: Locale, y: real): seq<Element> {
    [ Label(0, Margin, y, "Fecha: " + loc.longDate(q.createdDate), AlignLeft),
      Label(0, Margin, y + 8.0, "Cotización #: " + QuoteNumber(q.id), AlignLeft),
      Label(0, Margin, y + 28.0, "DETALLE DE MATERIALES", AlignLeft),
      Label(0, ColumnPositions[0], y + 40.0, "Material", AlignLeft),
      Label(0, ColumnPositions[1], y + 40.0, "Cantidad", AlignLeft),
      Label(0, ColumnPositions[2], y + 40.0, "Unidad", AlignLeft),
      Label(0, ColumnPositions[3], y + 40.0, "Precio Unit.", AlignLeft),
      Label(0, ColumnPositions[4], y + 40.0, "Total", AlignLeft),
      Rule(0, Margin, y + 45.0, size.width - Margin, y + 45.0) ]
  }

  /** Where the first table row would go before the page-break check. */
  function TableTop(q: Quote): Cursor {
    Cursor(0, if q.projectDescription != "" then 142.0 else 132.0)
  }

  /** The x-position of the summary labels; the amounts sit 50 to the right of it. */
  function SummaryX(size: PageSize): real {
    size.width - Margin - 80.0
  }

  /** The rule and the three summary lines after the table, on the page where the table
      ended and without any page-break check. */
  function SummaryElements(q: Quote, size: PageSize, loc: Locale, end: Cursor): seq<Element> {
    var p, sx := end.page, SummaryX(size);
    [ Rule(p, Margin, end.y + 8.0, size.width - Margin, end.y + 8.0),
      Label(p, sx, end.y + 20.0, "Subtotal Materiales:", AlignLeft),
      Label(p, sx + 50.0, end.y + 20.0, FormatCurrency(loc, q.materialsCost), AlignLeft),
      Label(p, sx, end.y + 28.0, "Mano de Obra:", AlignLeft),
      Label(p, sx + 50.0, end.y + 28.0, FormatCurrency(loc, q.laborCost), AlignLeft),
      Label(p, sx, end.y + 40.0, "TOTAL:", AlignLeft),
      Label(p, sx + 50.0, end.y + 40.0, FormatCurrency(loc, q.totalCost), AlignLeft) ]
  }

  const Disclaimer := "Esta cotización tiene validez de 30 días."

  /** Where the table ends: the cursor after the last row. */
  function TableEnd(q: Quote, size: PageSize): Cursor {
    CursorAfterRows(TableTop(q), |q.items|, size)
  }

  /** Everything `generateQuotePDF` draws for a quote, in drawing order. */
  function QuoteElements(q: Quote, size: PageSize, loc: Locale): seq<Element> {
    var end := TableEnd(q, size);
    HeaderElements(q, size, loc)
    + TableRows(q.items, TableTop(q), size, loc)
    + SummaryElements(q, size, loc, end)
    + [Label(end.page, Margin, size.height - FooterRise, Disclaimer, AlignLeft)]
  }

  /** The whole document: its elements, one page more than the last page break, and the
      file it is saved as. */
  function QuotePdf(q: Quote, size: PageSize, loc: Locale): (r: Pdf)
    ensures r.pageCount >= 1
    ensures |r.elements| == HeaderLength(q) + 5 * |q.items| + 8
    ensures |r.fileName| >= 16 && r.fileName[..11] == "Cotizacion_"
  {
    HeaderLengthIs(q, size, loc);
    Pdf(QuoteElements(q, size, loc), TableEnd(q, size).page + 1, FileName(q.clientName, q.id))
  }

  lemma QuoteElementsParts(q: Quote, size: PageSize, loc: Locale)
    ensures var end := TableEnd(q, size);
      QuoteElements(q, size, loc)
      == HeaderElements(q, size, loc) + TableRows(q.items, TableTop(q), size, loc)
         + SummaryElements(q, size, loc, end)
         + [Label(end.page, Margin, size.height - FooterRise, Disclaimer, AlignLeft)]
  {
  }

  // ---------------------------------------------------------------------------------
  // The drawing routine

  /** `generateQuotePDF`: moves a cursor down the page, drawing as it goes, and opens a new
      page before any table row that would start past `height - 50`. */
  method GenerateQuotePdf(q: Quote, size: PageSize, loc: Locale) returns (pdf: Pdf)
    ensures pdf == QuotePdf(q, size, loc)
  {
    var header, y := DrawHeader(q, size, loc);
    var rows, end := DrawRows(q.items, Cursor(0, y), size, loc);
    var summary := DrawSummary(q, size, loc, end);
    var footer := Label(end.page, Margin, size.height - FooterRise, Disclaimer, AlignLeft);
    pdf := Pdf(header + rows + summary + [footer], end.page + 1, FileName(q.clientName, q.id));
    QuoteElementsParts(q, size, loc);
  }

  /** The `forEach` over the items: before each row, the page-break check; then the row's
      five cells; then the cursor moves down one row. */
  method DrawRows(items: seq<QuoteLineItem>, top: Cursor, size: PageSize, loc: Locale)
    returns (elements: seq<Element>, end: Cursor)
    ensures elements == TableRows(items, top, size, loc)
    ensures end == CursorAfterRows(top, |items|, size)
  {
    var page, y := top.page, top.y;
    elements := [];
    assert items[..0] == [];
    var i := 0;
    while i < |items|
      invariant 0 <= i <= |items|
      invariant elements == TableRows(items[..i], top, size, loc)
      invariant Cursor(page, y) == CursorAfterRows(top, i, size)
    {
      if y > size.height - BottomReserve {
        page := page + 1;
        y := Margin;
      }
      assert Cursor(page, y) == RowPosition(top, i, size);
      var item := items[i];
      var cells := [
        Label(page, ColumnPositions[0], y, item.materialName, AlignLeft),
        Label(page, ColumnPositions[1], y, loc.numberText(item.quantity), AlignLeft),
        Label(page, ColumnPositions[2], y, item.unit, AlignLeft),
        Label(page, ColumnPositions[3], y, FormatCurrency(loc, item.unitCost), AlignLeft),
        Label(page, ColumnPositions[4], y, FormatCurrency(loc, item.totalCost), AlignLeft)];
      assert cells == RowCells(item, Cursor(page, y), loc);
      TableRowsSnoc(items, top, size, loc, i);
      elements := elements + cells;
      y := y + RowHeight;
      i := i + 1;
    }
    assert items[..i] == items;
    end := Cursor(page, y);
  }

  /** The title, client block and table header, drawn on the first page from the top margin
      down; `y` is where the cursor stands when the table body begins. */
  method DrawHeader(q: Quote, size: PageSize, loc: Locale) returns (elements: seq<Element>, y: real)
    ensures elements == HeaderElements(q, size, loc)
    ensures Cursor(0, y) == TableTop(q)
  {
    elements, y := DrawClientBlock(q, size);
    if q.projectDescription != "" {
      elements := elements + [Label(0, Margin, y, "Proyecto: " + q.projectDescription, AlignLeft)];
      y := y + 10.0;
    }
    var head;
    head, y := DrawTableHead(q, size, loc, y);
    elements := elements + head;
  }

  method DrawClientBlock(q: Quote, size: PageSize) returns (elements: seq<Element>, y: real)
    ensures elements == ClientBlock(q, size) && y == 77.0
  {
    y := Margin;
    var title := Label(0, size.width / 2.0, y, "COTIZACIÓN", AlignCenter);
    y := y + 15.0;
    var rule := Rule(0, Margin, y, size.width - Margin, y);
    y := y + 20.0;
    var heading := Label(0, Margin, y, "INFORMACIÓN DEL CLIENTE", AlignLeft);
    y := y + 12.0;
    var client := Label(0, Margin, y, "Cliente: " + q.clientName, AlignLeft);
    y := y + 10.0;
    elements := [title, rule, heading, client];
  }

  method DrawTableHead(q: Quote, size: PageSize, loc: Locale, top: real) returns (elements: seq<Element>, y: real)
    ensures elements == TableHead(q, size, loc, top) && y == top + 55.0
  {
    y := top;
    var date := Label(0, Margin, y, "Fecha: " + loc.longDate(q.createdDate), AlignLeft);
    y := y + 8.0;
    var number := Label(0, Margin, y, "Cotización #: " + QuoteNumber(q.id), AlignLeft);
    y := y + 20.0;
    var heading := Label(0, Margin, y, "DETALLE DE MATERIALES", AlignLeft);
    y := y + 12.0;
    var columns := [
      Label(0, ColumnPositions[0], y, "Material", AlignLeft),
      Label(0, ColumnPositions[1], y, "Cantidad", AlignLeft),
      Label(0, ColumnPositions[2], y, "Unidad", AlignLeft),
      Label(0, ColumnPositions[3], y, "Precio Unit.", AlignLeft),
      Label(0, ColumnPositions[4], y, "Total", AlignLeft)];
    y := y + 5.0;
    var rule := Rule(0, Margin, y, size.width - Margin, y);
    y := y + 10.0;
    elements := [date, number, heading] + columns + [rule];
  }

  /** The rule under the table and the three summary lines, from where the table ended. */
  method DrawSummary(q: Quote, size: PageSize, loc: Locale, end: Cursor) returns (elements: seq<Element>)
    ensures elements == SummaryElements(q, size, loc, end)
  {
    var page, y := end.page, end.y;
    y := y + 8.0;
    var rule := Rule(page, Margin, y, size.width - Margin, y);
    y := y + 12.0;
    var summaryX := size.width - Margin - 80.0;
    var materials := [Label(page, summaryX, y, "Subtotal Materiales:", AlignLeft),
                      Label(page, summaryX + 50.0, y, FormatCurrency(loc, q.materialsCost), AlignLeft)];
    y := y + 8.0;
    var labour := [Label(page, summaryX, y, "Mano de Obra:", AlignLeft),
                   Label(page, summaryX + 50.0, y, FormatCurrency(loc, q.laborCost), AlignLeft)];
    y := y + 12.0;
    var total := [Label(page, summaryX, y, "TOTAL:", AlignLeft),
                  Label(page, summaryX + 50.0, y, FormatCurrency(loc, q.totalCost), AlignLeft)];
    elements := [rule] + materials + labour + total;
  }

  // ---------------------------------------------------------------------------------
  // Properties of the document

  function HeaderLength(q: Quote): nat {
    if q.projectDescription != "" then 14 else 13
  }

  lemma HeaderLengthIs(q: Quote, size: PageSize, loc: Locale)
    ensures |HeaderElements(q, size, loc)| == HeaderLength(q)
  {
  }

  /** Every element of `els` is on a page before page `n`. */
  predicate OnPagesBelow(els: seq<Element>, n: nat) {
    forall k :: 0 <= k < |els| ==> els[k].page < n
  }

  lemma OnPagesBelowConcat(a: seq<Element>, b: seq<Element>, n: nat)
    requires OnPagesBelow(a, n) && OnPagesBelow(b, n)
    ensures OnPagesBelow(a + b, n)
  {
    forall k | 0 <= k < |a + b| ensures (a + b)[k].page < n {
      if k < |a| {
        assert (a + b)[k] == a[k];
      } else {
        assert (a + b)[k] == b[k - |a|];
      }
    }
  }

  lemma OnPagesBelowWider(a: seq<Element>, n: nat, m: nat)
    requires OnPagesBelow(a, n) && n <= m
    ensures OnPagesBelow(a, m)
  {
  }

  /** Item i of the quote is drawn as the five cells of row i of the table, at the place
      RowPosition gives it. */
  lemma ItemRowInDocument(q: Quote, size: PageSize, loc: Locale, i: nat)
    requires i < |q.items|
    ensures var pdf, h := QuotePdf(q, size, loc), HeaderLength(q);
      h + 5 * i + 5 <= |pdf.elements|
      && pdf.elements[h + 5 * i..h + 5 * i + 5]
         == RowCells(q.items[i], RowPosition(TableTop(q), i, size), loc)
  {
    var top, end := TableTop(q), TableEnd(q, size);
    var header := HeaderElements(q, size, loc);
    var rows := TableRows(q.items, top, size, loc);
    var summary := SummaryElements(q, size, loc, end);
    var footer := [Label(end.page, Margin, size.height - FooterRise, Disclaimer, AlignLeft)];
    QuoteElementsParts(q, size, loc);
    HeaderLengthIs(q, size, loc);
    TableRowAt(q.items, top, size, loc, i);
    BlockOfSecond(QuoteElements(q, size, loc), header, rows, summary, footer, 5 * i, 5 * i + 5,
                  RowCells(q.items[i], RowPosition(top, i, size), loc));
  }

  /** The page count is one more than the number of page breaks, at most one per item; and
      every element is drawn on one of the document's pages. */
  lemma PagesOfDocument(q: Quote, size: PageSize, loc: Locale)
    ensures var pdf := QuotePdf(q, size, loc);
      && 1 <= pdf.pageCount <= |q.items| + 1
      && forall k :: 0 <= k < |pdf.elements| ==> pdf.elements[k].page < pdf.pageCount
  {
    var top, end := TableTop(q), TableEnd(q, size);
    var header := HeaderElements(q, size, loc);
    var rows := TableRows(q.items, top, size, loc);
    var summary := SummaryElements(q, size, loc, end);
    var footer := [Label(end.page, Margin, size.height - FooterRise, Disclaimer, AlignLeft)];
    var n := end.page + 1;
    QuoteElementsParts(q, size, loc);
    PagesPerRow(top, |q.items|, size);
    HeaderOnFirstPage(q, size, loc, n);
    TableRowsPages(q.items, top, size, loc);
    SummaryOnOnePage(q, size, loc, end);
    OnPagesBelowParts(QuoteElements(q, size, loc), header, rows, summary, footer, n);
  }

  lemma HeaderOnFirstPage(q: Quote, size: PageSize, loc: Locale, n: nat)
    requires n > 0
    ensures OnPagesBelow(HeaderElements(q, size, loc), n)
  {
  }

  lemma SummaryOnOnePage(q: Quote, size: PageSize, loc: Locale, end: Cursor)
    ensures OnPagesBelow(SummaryElements(q, size, loc, end), end.page + 1)
  {
  }

  lemma OnPagesBelowParts(e: seq<Element>, w: seq<Element>, x: seq<Element>, y: seq<Element>, z: seq<Element>, n: nat)
    requires e == w + x + y + z
    requires OnPagesBelow(w, n) && OnPagesBelow(x, n) && OnPagesBelow(y, n) && OnPagesBelow(z, n)
    ensures OnPagesBelow(e, n)
  {
    OnPagesBelowConcat(w, x, n);
    OnPagesBelowConcat(w + x, y, n);
    OnPagesBelowConcat(w + x + y, z, n);
  }

  /** The summary block: labels at `width - margin - 80`, amounts 50 further right, the
      labour line 8 below the subtotal and the total 12 below that, all on the page where
      the table ended. */
  lemma SummaryLayout(q: Quote, size: PageSize, loc: Locale, end: Cursor)
    ensures var s, sx := SummaryElements(q, size, loc, end), size.width - Margin - 80.0;
      && |s| == 7
      && s[1] == Label(end.page, sx, s[1].y, "Subtotal Materiales:", AlignLeft)
      && s[2] == Label(end.page, sx + 50.0, s[1].y, FormatCurrency(loc, q.materialsCost), AlignLeft)
      && s[3] == Label(end.page, sx, s[1].y + 8.0, "Mano de Obra:", AlignLeft)
      && s[4] == Label(end.page, sx + 50.0, s[1].y + 8.0, FormatCurrency(loc, q.laborCost), AlignLeft)
      && s[5] == Label(end.page, sx, s[1].y + 20.0, "TOTAL:", AlignLeft)
      && s[6] == Label(end.page, sx + 50.0, s[1].y + 20.0, FormatCurrency(loc, q.totalCost), AlignLeft)
  {
  }

  /** The document ends with the summary block of the page where the table ended, then the
      footer: on the last page, at `height - 25` whatever the cursor was. */
  lemma SummaryAndFooter(q: Quote, size: PageSize, loc: Locale)
    ensures var pdf := QuotePdf(q, size, loc);
      var e, n := pdf.elements, |pdf.elements|;
      && n >= 8
      && e[n - 8..n - 1] == SummaryElements(q, size, loc, TableEnd(q, size))
      && e[n - 1] == Label(pdf.pageCount - 1, Margin, size.height - 25.0, Disclaimer, AlignLeft)
  {
    var top, end := TableTop(q), TableEnd(q, size);
    var header := HeaderElements(q, size, loc);
    var rows := TableRows(q.items, top, size, loc);
    var summary := SummaryElements(q, size, loc, end);
    var footer := [Label(end.page, Margin, size.height - FooterRise, Disclaimer, AlignLeft)];
    QuoteElementsParts(q, size, loc);
    EndsWith(QuoteElements(q, size, loc), header, rows, summary, footer);
  }

  // ---------------------------------------------------------------------------------
  // The image export

  /** A captured image's size in pixels. */
  datatype Canvas = Canvas(width: real, height: real)

  /** Where the image goes on the page, and at what size. */
  datatype ImagePlacement = ImagePlacement(x: real, y: real, width: real, height: real)

  /** Every failure of an export surfaces as the same generic error. */
  datatype ExportError = ExportFailed

  function Min(a: real, b: real): real {
    if a <= b then a else b
  }

  /** `generatePDFFromElement`: no element to capture is an error; otherwise the capture is
      scaled by one ratio on both axes so that it fits the page, touches the page on at least
      one side, is centred horizontally and hangs from the top edge. */
  function PlaceCapture(size: PageSize, capture: Option<Canvas>): (r: Result<ImagePlacement, ExportError>)
    requires capture.Some? ==> capture.value.width > 0.0 && capture.value.height > 0.0
    ensures capture.None? <==> r.Err?
    ensures r.Ok? ==>
      var c, p := capture.value, r.value;
      && p.width <= size.width && p.height <= size.height
      && (p.width == size.width || p.height == size.height)
      && p.width * c.height == p.height * c.width
      && p.x + p.width + p.x == size.width
      && p.y == 0.0
  {
    match capture
    case None => Err(ExportFailed)
    case Some(c) =>
      var ratio := Min(size.width / c.width, size.height / c.height);
      assert c.width * (size.width / c.width) == size.width;
      assert c.height * (size.height / c.height) == size.height;
      ScaleBelow(c.width, ratio, size.width / c.width);
      ScaleBelow(c.height, ratio, size.height / c.height);
      Ok(ImagePlacement((size.width - c.width * ratio) / 2.0, 0.0, c.width * ratio, c.height * ratio))
  }

  lemma ScaleBelow(k: real, a: real, b: real)
    requires k > 0.0 && a <= b
    ensures k * a <= k * b
  {
  }
}
