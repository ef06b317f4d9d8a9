/**
 * The three exporters re-derive the same table with their own counters;
 * here they are compared on the same curriculum. For every item they show
 * the same number, details and minutes and classify its type the same way,
 * and they differ only in how the part title is laid out: a merged cell in
 * the workbook, blanks in the PDF, a `rowspan` cell in the HTML page.
 */
module Agreement {
  import opened Wrappers
  import opened Text
  import opened Curriculum
  import opened Table
  import opened ExcelExport
  import opened PdfExport
  import opened HtmlExport
  import Editor

  /**
   * Item `j` of part `i`: the workbook row `8 + k`, PDF body row `k` and
   * HTML row `k`, with `k` its index over the whole document, carry the
   * number `k + 1`, its details and its minutes; the details are coloured
   * practice in all three (and in the editor's badge) or theory in all
   * three, or in none.
   */
  lemma ExportsAgreeOnItem(data: ExportData, i: nat, j: nat)
    requires i < |data.parts| && j < |data.parts[i].items|
    ensures Start(data.parts, i) + j < |PdfBody(data.parts)| == |Layout(data.parts)|
    ensures var k := Start(data.parts, i) + j;
      var item := data.parts[i].items[j];
      var sheetRow := ViewOf(Workbook(data), FirstDataRow + k);
      var pdfRow := PdfBody(data.parts)[k];
      var htmlRow := Layout(data.parts)[k];
      && k < |HtmlRowList(Layout(data.parts))|
      // the running number
      && sheetRow.a == Some(Num(k + 1)) && ParseInt(pdfRow[0]) == k + 1 && htmlRow.number == k + 1
      // the details, verbatim
      && sheetRow.c == Some(Str(item.details)) && pdfRow[2] == item.details && htmlRow.details == item.details
      && Contains(HtmlRowList(Layout(data.parts))[k], item.details)
      // the minutes, 0 when unset
      && sheetRow.d == Some(Num(Minutes(item))) && ParseInt(pdfRow[3]) == Minutes(item) && htmlRow.minutes == Minutes(item)
      // the type colouring
      && (sheetRow.fillC == Some(PracticeFill) <==> CellFill(PdfBody(data.parts), BodySection, k, 2) == Some(PracticeRgb))
      && (sheetRow.fillC == Some(PracticeFill) <==> TypeClass(htmlRow.kind) == "practice")
      && (sheetRow.fillC == Some(TheoryFill) <==> CellFill(PdfBody(data.parts), BodySection, k, 2) == Some(TheoryRgb))
      && (sheetRow.fillC == Some(TheoryFill) <==> TypeClass(htmlRow.kind) == "theory")
      && (sheetRow.fillC == None <==> CellFill(PdfBody(data.parts), BodySection, k, 2) == None)
      && (sheetRow.fillC == None <==> Editor.Badge(item.kind) == Editor.Badge(None))
  {
    var ps := data.parts;
    var k := Start(ps, i) + j;
    WorkbookItem(data, i, j);
    PdfItemRow(ps, i, j);
    HtmlItemRow(ps, i, j);
    LayoutAt(ps, i, j);
    assert Items(ps)[k] == ps[i].items[j] by { ItemsAt(ps, i, j); }
    PdfFillByType(ps, k, 2);
    Editor.BadgeFollowsStyle(ps[i].items[j].kind, None);
    TypeClassFollowsStyle(ps[i].items[j].kind);
  }

  /** Item `j` of part `i` is item `Start(ps, i) + j` of the whole document. */
  lemma {:induction false} ItemsAt(ps: seq<Part>, i: nat, j: nat)
    requires i < |ps| && j < |ps[i].items|
    ensures Start(ps, i) + j < |Items(ps)| && Items(ps)[Start(ps, i) + j] == ps[i].items[j]
  {
    var n := |ps| - 1;
    StartMonotone(ps, i, |ps|);
    StartAll(ps);
    if i < n {
      ItemsAt(ps[..n], i, j);
      StartOfPrefix(ps, n, i);
    }
  }

  /**
   * The part title of a part with items, in the three exports. The
   * workbook writes it once, in column B of the part's first row.
   */
  lemma WorkbookTitleCell(data: ExportData, i: nat, j: nat)
    requires i < |data.parts| && j < |data.parts[i].items|
    ensures ViewOf(Workbook(data), FirstDataRow + Start(data.parts, i) + j).b == (if j == 0 then Some(Str(data.parts[i].title)) else None)
  {
    WorkbookItem(data, i, j);
  }

  /** The PDF writes it in column 1 of the part's first row and '' on the others. */
  lemma PdfTitleCell(ps: seq<Part>, i: nat, j: nat)
    requires i < |ps| && j < |ps[i].items|
    ensures Start(ps, i) + j < |PdfBody(ps)| == |Layout(ps)|
    ensures PdfBody(ps)[Start(ps, i) + j][1] == (if j == 0 then ps[i].title else "")
  {
    PdfItemRow(ps, i, j);
  }

  /** The HTML page writes one cell on the part's first row, spanning all of the part's rows. */
  lemma HtmlTitleCell(ps: seq<Part>, i: nat, j: nat)
    requires i < |ps| && j < |ps[i].items|
    ensures Start(ps, i) + j < |Layout(ps)|
    ensures j == 0 <==> Layout(ps)[Start(ps, i) + j].first
    ensures Layout(ps)[Start(ps, i) + j].span == |ps[i].items|
    ensures j == 0 ==> Contains(HtmlRowList(Layout(ps))[Start(ps, i) + j], PartCell(|ps[i].items|, ps[i].title))
  {
    HtmlItemRow(ps, i, j);
  }

  /** The workbook merges a part's title cells exactly when the part has two items or more. */
  lemma PartMergedIffTwoItems(data: ExportData, i: nat)
    requires i < |data.parts|
    ensures var ps := data.parts;
      var n := |ps[i].items|;
      n >= 2 <==> Merge(B, FirstDataRow + Start(ps, i), FirstDataRow + Start(ps, i) + n - 1) in Workbook(data).merges
  {
    var ps := data.parts;
    var n := |ps[i].items|;
    var m := Merge(B, FirstDataRow + Start(ps, i), FirstDataRow + Start(ps, i) + n - 1);
    WorkbookMerges(data, m);
    if m in Workbook(data).merges {
      var i' :| 0 <= i' < |ps| && |ps[i'].items| >= 2 &&
        m == Merge(B, FirstDataRow + Start(ps, i'), FirstDataRow + Start(ps, i') + |ps[i'].items| - 1);
      assert i' == i by {
        if i' < i {
          StartMonotone(ps, i', i);
        } else if i < i' {
          StartMonotone(ps, i, i');
        }
      }
    }
  }
}
