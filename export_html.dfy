/**
 * The HTML export (`exportCurriculumToHtml`): a standalone page with the
 * course title in `<title>` and `<h1>`, the objectives and running time,
 * and a five-column table whose body `generateTableRows` builds as one
 * string, one `<tr>` fragment per item. The part cell is written on a
 * part's first row with a `rowspan` of the part's item count. Every text
 * is interpolated as it is, without HTML escaping.
 */
module HtmlExport {
  import opened Wrappers
  import opened Text
  import opened Curriculum
  import opened Table
  import opened Filename

  /** The class of the details cell: 'practice', 'theory' or 'demo'. */
  function TypeClass(kind: Option<Kind>): string
  {
    if kind == Some(Practice) then "practice"
    else if kind == Some(Theory) then "theory"
    else "demo"
  }

  /** The class follows the same three-way split as the other exports. */
  lemma TypeClassFollowsStyle(kind: Option<Kind>)
    ensures TypeClass(kind) == "practice" <==> StyleOf(kind) == PracticeStyle
    ensures TypeClass(kind) == "theory" <==> StyleOf(kind) == TheoryStyle
    ensures TypeClass(kind) == "demo" <==> StyleOf(kind) == Neutral
  {
  }

  /** `<td class="part-col" rowspan="n">title</td>` */
  function PartCell(span: nat, title: string): string
  {
    "<td class=\"part-col\" rowspan=\"" + IntToString(span) + "\">" + title + "</td>"
  }

  /** The row's opening up to and including the number cell. */
  function NumberCell(number: int): string
  {
    "\n                <tr>\n                    <td class=\"number-col\">" + IntToString(number) + "</td>\n                    "
  }

  /** The part cell on a part's first row, nothing on the others. */
  function PartCellOf(row: Row): string
  {
    if row.first then PartCell(row.span, row.title) else ""
  }

  /** The opening tag of the details cell. */
  function DetailsOpen(typeClass: string): string
  {
    "\n                    <td class=\"" + typeClass + "\">"
  }

  /** From the end of the details cell to the end of the row: minutes and type label. */
  function RowTail(minutes: int, typeLabel: string): string
  {
    "</td>\n                    <td class=\"duration-col\">" + IntToString(minutes) + "</td>\n                    <td class=\"type-col\">" + typeLabel + "</td>\n                </tr>"
  }

  /** The text the loop appends for one render row, with the template's own line breaks and indentation. */
  function HtmlRow(row: Row): string
  {
    NumberCell(row.number) + PartCellOf(row) + DetailsOpen(TypeClass(row.kind)) + row.details + RowTail(row.minutes, TypeLabel(row.kind))
  }

  /** The row fragments, one per render row. */
  function HtmlRowList(rows: seq<Row>): (frags: seq<string>)
    ensures |frags| == |rows|
    ensures forall k :: 0 <= k < |rows| ==> frags[k] == HtmlRow(rows[k])
  {
    seq(|rows|, k requires 0 <= k < |rows| => HtmlRow(rows[k]))
  }

  /** Concatenation of strings, front to back. */
  function Concat(ss: seq<string>): string
  {
    if ss == [] then "" else Concat(ss[..|ss| - 1]) + ss[|ss| - 1]
  }

  /** The rows' fragments, concatenated in order: what the item loop accumulates. */
  function RowsText(rows: seq<Row>): string
  {
    if rows == [] then "" else RowsText(rows[..|rows| - 1]) + HtmlRow(rows[|rows| - 1])
  }

  /** The string `generateTableRows` returns for a document. */
  function TableRows(ps: seq<Part>): string
  {
    RowsText(Layout(ps))
  }

  lemma RowsTextAppend(rows: seq<Row>, row: Row)
    ensures RowsText(rows + [row]) == RowsText(rows) + HtmlRow(row)
  {
    assert (rows + [row])[..|rows|] == rows;
  }

  /** The accumulated text is the concatenation of one fragment per row. */
  lemma {:induction false} RowsTextIsConcat(rows: seq<Row>)
    ensures RowsText(rows) == Concat(HtmlRowList(rows))
  {
    if rows != [] {
      var init := rows[..|rows| - 1];
      RowsTextIsConcat(init);
      assert HtmlRowList(rows)[..|rows| - 1] == HtmlRowList(init);
    }
  }

  /** The template of one item row, filled in for item `index` of `part` with the running number. */
  method ItemFragment(part: Part, ghost i: nat, ghost before: nat, index: nat, itemNumber: int) returns (fragment: string)
    requires index < |part.items| && itemNumber == before + index + 1
    ensures fragment == HtmlRow(RowOf(part, i, before, index))
  {
    var item := part.items[index];
    var itemCount := |part.items|;
    var typeClass := if item.kind == Some(Practice) then "practice" else if item.kind == Some(Theory) then "theory" else "demo";
    var partCell := if index == 0 then PartCell(itemCount, part.title) else "";
    ghost var row := RowOf(part, i, before, index);
    assert partCell == PartCellOf(row);
    assert typeClass == TypeClass(row.kind);
    assert row.number == itemNumber && row.details == item.details && row.minutes == Minutes(item) && row.kind == item.kind;
    fragment := NumberCell(itemNumber) + partCell + DetailsOpen(typeClass) + item.details + RowTail(Minutes(item), TypeLabel(item.kind));
  }

  /**
   * One pass of the part loop of `generateTableRows`: the rows of part `i`,
   * appended to `rows` with the running `itemNumber`.
   */
  method AppendPartRows(parts: seq<Part>, i: nat, rows: string, itemNumber: int)
    returns (rows': string, itemNumber': int)
    requires i < |parts|
    requires rows == RowsText(Layout(parts[..i])) && itemNumber == ItemCount(parts[..i]) + 1
    ensures rows' == RowsText(Layout(parts[..i + 1])) && itemNumber' == ItemCount(parts[..i + 1]) + 1
  {
    var part := parts[i];
    var itemCount := |part.items|;
    ghost var before := ItemCount(parts[..i]);
    ghost var done: seq<Row> := Layout(parts[..i]);
    LayoutPartBegins(parts, i);
    rows', itemNumber' := rows, itemNumber;
    var index := 0;
    while index < itemCount
      invariant index <= itemCount
      invariant done == Layout(parts[..i]) + PartRows(part, i, before)[..index]
      invariant rows' == RowsText(done) && itemNumber' == before + index + 1
    {
      var fragment := ItemFragment(part, i, before, index, itemNumber');
      ghost var row := RowOf(part, i, before, index);
      rows' := rows' + fragment;
      RowsTextAppend(done, row);
      LayoutGrows(parts, i, index, done);
      done := done + [row];
      itemNumber' := itemNumber' + 1;
      index := index + 1;
    }
    LayoutPartEnds(parts, i, done);
  }

  /** `generateTableRows`: the loop over parts with the running `itemNumber`. */
  method GenerateTableRows(parts: seq<Part>) returns (rows: string)
    ensures rows == TableRows(parts)
  {
    rows := "";
    var itemNumber := 1;
    var i := 0;
    while i < |parts|
      invariant i <= |parts|
      invariant rows == RowsText(Layout(parts[..i])) && itemNumber == ItemCount(parts[..i]) + 1
    {
      rows, itemNumber := AppendPartRows(parts, i, rows, itemNumber);
      i := i + 1;
    }
    LayoutAll(parts);
  }

  /**
   * The page, cut where the interpolated values go: the `<title>`, the
   * `<h1>`, the objectives and running time, the `<th>` labels and the
   * table body. The fixed markup and style sheet around them are not
   * modelled.
   */
  datatype HtmlPage = HtmlPage(title: string, heading: string, objectives: string, hoursMinutes: int, headerCells: seq<string>, tableRows: string)

  /** The `<th>` labels of the table head, left to right. */
  const HtmlHeader: seq<string> := ["번호", "파트명", "상세 내용", "시간(분)", "타입"]

  /** `exportCurriculumToHtml`: the page and the download name. Creating the file and the download are left out. */
  method ExportHtml(data: ExportData) returns (page: HtmlPage, filename: string)
    ensures page.title == data.title && page.heading == "■ 강의명: " + data.title
    ensures page.objectives == OrElse(data.objectives, "없음") && page.hoursMinutes == data.duration
    ensures page.headerCells == HtmlHeader && page.tableRows == TableRows(data.parts)
    ensures filename == HtmlFilename(data.title)
  {
    var rows := GenerateTableRows(data.parts);
    page := HtmlPage(data.title, "■ 강의명: " + data.title, OrElse(data.objectives, "없음"), data.duration, HtmlHeader, rows);
    var safe := Sanitize(OrElse(data.title, DefaultName));
    filename := safe + ".html";
  }

  /** One fragment per item, numbered 1..K over all parts. */
  lemma HtmlRowNumbers(ps: seq<Part>, k: nat)
    requires k < ItemCount(ps)
    ensures |HtmlRowList(Layout(ps))| == ItemCount(ps)
    ensures HtmlRowList(Layout(ps))[k] == HtmlRow(Layout(ps)[k]) && Layout(ps)[k].number == k + 1
  {
  }

  /** The rowspans of the part cells add up to the number of rows. */
  lemma RowspansCoverRows(ps: seq<Part>)
    ensures SpanSum(Layout(ps)) == |HtmlRowList(Layout(ps))|
  {
    SpanSumIsRowCount(ps);
  }

  /**
   * Item `j` of part `i` is fragment `Start(ps, i) + j`; it holds a part
   * cell, with rowspan the part's item count and the part title, exactly
   * when it is the part's first item; its details cell has the class of its
   * type and holds the details as they are.
   */
  lemma HtmlItemRow(ps: seq<Part>, i: nat, j: nat)
    requires i < |ps| && j < |ps[i].items|
    ensures Start(ps, i) + j < |HtmlRowList(Layout(ps))|
    ensures var row := Layout(ps)[Start(ps, i) + j];
      && row.first == (j == 0) && row.span == |ps[i].items| && row.title == ps[i].title
      && row.details == ps[i].items[j].details
      && Contains(HtmlRowList(Layout(ps))[Start(ps, i) + j], ps[i].items[j].details)
      && (j == 0 ==> Contains(HtmlRowList(Layout(ps))[Start(ps, i) + j], PartCell(|ps[i].items|, ps[i].title)))
  {
    var k := Start(ps, i) + j;
    LayoutAt(ps, i, j);
    var row := Layout(ps)[k];
    var head := NumberCell(row.number) + PartCellOf(row) + DetailsOpen(TypeClass(row.kind));
    var tail := RowTail(row.minutes, TypeLabel(row.kind));
    ContainsMiddle(head, row.details, tail);
    if j == 0 {
      ContainsMiddle(NumberCell(row.number), PartCellOf(row), DetailsOpen(TypeClass(row.kind)));
      ContainsAppend(head, PartCellOf(row), row.details);
      ContainsAppend(head + row.details, PartCellOf(row), tail);
    }
  }
}
