/**
 * The PDF export (`exportCurriculumToPdf`): three text lines (title,
 * objectives, running time), then a table whose body holds one row of five
 * strings per item (number, part title on the part's first row and '' on
 * the others, details, minutes, type label), with the details cell of
 * practice and theory items coloured by the `didParseCell` hook.
 *
 * Fonts, column widths, padding and the binary PDF are not modelled: the
 * document is the list of text lines plus the table's head and body.
 */
module PdfExport {
  import opened Wrappers
  import opened Text
  import opened Curriculum
  import opened Table
  import opened Filename

  /** An RGB fill colour. */
  datatype Rgb = Rgb(r: int, g: int, b: int)

  const HeadFill: Rgb := Rgb(0, 169, 187)
  const PracticeRgb: Rgb := Rgb(255, 244, 230)
  const TheoryRgb: Rgb := Rgb(227, 242, 253)

  /** The single head row of the table. */
  const PdfHead: seq<string> := ["번호", "파트명", "상세 내용", "시간(분)", "타입"]

  /** Where the table starts on the page. */
  const TableStartY: int := 55

  /**
   * What a text line shows. `Hours(m)` is '진행시간: <h>시간' with
   * <h> = `(m / 60).toFixed(1)`, a floating-point rendering kept symbolic.
   */
  datatype LineText = Plain(s: string) | Hours(minutes: int)

  /** `doc.text(text, x, y)` at the given font size. */
  datatype TextLine = TextLine(fontSize: int, text: LineText, x: int, y: int)

  datatype PdfDocument = PdfDocument(lines: seq<TextLine>, head: seq<seq<string>>, body: seq<seq<string>>)

  /** The body row the item loop pushes for a render row. */
  function PdfRow(row: Row): (cells: seq<string>)
    ensures |cells| == 5
  {
    [IntToString(row.number), if row.first then row.title else "", row.details, IntToString(row.minutes), TypeLabel(row.kind)]
  }

  function PdfRows(rows: seq<Row>): (body: seq<seq<string>>)
    ensures |body| == |rows|
    ensures forall k :: 0 <= k < |rows| ==> body[k] == PdfRow(rows[k])
  {
    seq(|rows|, k requires 0 <= k < |rows| => PdfRow(rows[k]))
  }

  /** The table body of a document: `tableData`. */
  function PdfBody(ps: seq<Part>): seq<seq<string>>
  {
    PdfRows(Layout(ps))
  }

  /**
   * `tableData`: the nested loop over parts and items with the running
   * `itemNumber`.
   */
  method BuildTableData(parts: seq<Part>) returns (tableData: seq<seq<string>>)
    ensures tableData == PdfBody(parts)
  {
    tableData := [];
    var itemNumber := 1;
    ghost var done: seq<Row> := [];
    var i := 0;
    while i < |parts|
      invariant i <= |parts|
      invariant done == Layout(parts[..i]) && tableData == PdfRows(done)
      invariant itemNumber == |done| + 1
    {
      var part := parts[i];
      ghost var before := ItemCount(parts[..i]);
      LayoutPartBegins(parts, i);
      var index := 0;
      while index < |part.items|
        invariant index <= |part.items|
        invariant done == Layout(parts[..i]) + PartRows(part, i, before)[..index]
        invariant tableData == PdfRows(done)
        invariant itemNumber == |done| + 1
      {
        var item := part.items[index];
        tableData := tableData + [[
          IntToString(itemNumber),
          if index == 0 then part.title else "",
          item.details,
          IntToString(Minutes(item)),
          TypeLabel(item.kind)]];
        LayoutGrows(parts, i, index, done);
        done := done + [RowOf(part, i, before, index)];
        itemNumber := itemNumber + 1;
        index := index + 1;
      }
      LayoutPartEnds(parts, i, done);
      i := i + 1;
    }
    LayoutAll(parts);
  }

  /** The sections of the table `didParseCell` is called for. */
  datatype Section = HeadSection | BodySection

  /**
   * `didParseCell`: only body cells of column 2 are coloured, after the
   * type label in column 4 of the same `tableData` row.
   */
  function CellFill(tableData: seq<seq<string>>, section: Section, row: nat, column: nat): (f: Option<Rgb>)
    requires section == BodySection && column == 2 ==> row < |tableData| && |tableData[row]| == 5
    ensures f != None ==> section == BodySection && column == 2
  {
    if section == BodySection && column == 2 then
      var kind := tableData[row][4];
      if kind == "실습" then Some(PracticeRgb)
      else if kind == "이론" then Some(TheoryRgb)
      else None
    else None
  }

  /** `학습목표: ${learningObjectives || '없음'}` */
  function PdfObjectivesLine(objectives: string): string
  {
    "학습목표: " + OrElse(objectives, "없음")
  }

  /** The document an export produces. */
  function PdfLines(data: ExportData): seq<TextLine>
  {
    [TextLine(18, Plain("커리큘럼: " + data.title), 15, 20),
     TextLine(12, Plain(PdfObjectivesLine(data.objectives)), 15, 35),
     TextLine(12, Hours(data.duration), 15, 45)]
  }

  /**
   * `exportCurriculumToPdf`: the text lines, the table and the download
   * name. Producing the file and the download are left out.
   */
  method ExportPdf(data: ExportData) returns (doc: PdfDocument, filename: string)
    ensures doc.lines == PdfLines(data)
    ensures doc.head == [PdfHead] && doc.body == PdfBody(data.parts)
    ensures filename == PdfFilename(data.title)
  {
    var lines := [TextLine(18, Plain("커리큘럼: " + data.title), 15, 20)];
    lines := lines + [TextLine(12, Plain("학습목표: " + OrElse(data.objectives, "없음")), 15, 35)];
    lines := lines + [TextLine(12, Hours(data.duration), 15, 45)];
    assert lines == PdfLines(data) by {
      assert lines[1] == PdfLines(data)[1];
    }
    var tableData := BuildTableData(data.parts);
    doc := PdfDocument(lines, [PdfHead], tableData);
    var safe := Sanitize(OrElse(data.title, DefaultName));
    filename := safe + ".pdf";
  }

  /** One body row per item, in part order then item order. */
  lemma PdfRowCount(ps: seq<Part>)
    ensures |PdfBody(ps)| == ItemCount(ps)
  {
  }

  /**
   * Item `j` of part `i` is body row `Start(ps, i) + j`: its number reads
   * back as `Start + j + 1`, column 1 holds the part title on the part's
   * first item and '' on the others, column 2 the details, column 3 reads
   * back as the minutes (0 when unset) and column 4 is the type label
   * ('시연' when unset).
   */
  lemma PdfItemRow(ps: seq<Part>, i: nat, j: nat)
    requires i < |ps| && j < |ps[i].items|
    ensures Start(ps, i) + j < |PdfBody(ps)|
    ensures var cells := PdfBody(ps)[Start(ps, i) + j];
      var item := ps[i].items[j];
      && ParseInt(cells[0]) == Start(ps, i) + j + 1
      && cells[1] == (if j == 0 then ps[i].title else "")
      && cells[2] == item.details
      && ParseInt(cells[3]) == (if item.duration.Some? then item.duration.value else 0)
      && cells[4] == (if item.kind.Some? then KindLabel(item.kind.value) else "시연")
  {
    var k := Start(ps, i) + j;
    LayoutAt(ps, i, j);
    var row := Layout(ps)[k];
    IntToStringRoundTrip(row.number);
    IntToStringRoundTrip(row.minutes);
  }

  /**
   * Only the details cell is coloured: light orange exactly for '실습',
   * light blue exactly for '이론', nothing for any other type, including
   * the unset type shown as '시연'.
   */
  lemma PdfFillByType(ps: seq<Part>, k: nat, column: nat)
    requires k < |PdfBody(ps)|
    ensures CellFill(PdfBody(ps), BodySection, k, column) == Some(PracticeRgb)
      <==> column == 2 && Items(ps)[k].kind == Some(Practice)
    ensures CellFill(PdfBody(ps), BodySection, k, column) == Some(TheoryRgb)
      <==> column == 2 && Items(ps)[k].kind == Some(Theory)
    ensures CellFill(PdfBody(ps), BodySection, k, column) == None
      <==> column != 2 || StyleOf(Items(ps)[k].kind) == Neutral
  {
    StyleFromLabel(Items(ps)[k].kind);
    assert PracticeRgb != TheoryRgb;
  }

  /** No head cell is ever coloured by the hook. */
  lemma PdfHeadNotRecoloured(tableData: seq<seq<string>>, row: nat, column: nat)
    ensures CellFill(tableData, HeadSection, row, column) == None
  {
  }

  /**
   * Each part with items shows its title in exactly one body row, the
   * part's first; a part without items contributes no row at all.
   */
  lemma PdfTitleOnce(ps: seq<Part>, i: nat, k: nat)
    requires i < |ps| && k < |PdfBody(ps)|
    ensures Layout(ps)[k].part == i ==> PdfBody(ps)[k][1] == (if k == Start(ps, i) then ps[i].title else "")
    ensures ps[i].items == [] ==> Layout(ps)[k].part != i
  {
    LayoutOwner(ps, k);
    if ps[i].items == [] {
      EmptyPartHasNoRows(ps, i, k);
    }
  }
}
