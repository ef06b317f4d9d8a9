/**
 * The spreadsheet export (`exportCurriculumToExcel`). A worksheet named
 * '커리큘럼' gets the course title, objectives and running time in B2..B4,
 * a coloured header in row 7 and, from row 8 on, one row per item: its
 * running number in A, the part title in B on the part's first row only,
 * the details in C and the minutes in D. Column C is coloured by item type,
 * the part's B cells are merged when the part has two or more items, and
 * the part's B cell gets the part colour.
 *
 * The exporter only ever addresses columns A..D, so a worksheet is kept
 * row by row: for each row number (1-based, as in ExcelJS) the values and
 * fills of its four cells and its height.
 */
module ExcelExport {
  import opened Wrappers
  import opened Text
  import opened Curriculum
  import opened Table
  import opened Filename

  const SheetName: string := "커리큘럼"
  /** Widths of columns A..D. */
  const ColumnWidths: seq<int> := [8, 30, 60, 12]
  const HeaderRow: nat := 7
  const FirstDataRow: nat := 8
  const HeaderLabels: seq<string> := ["번호", "파트명", "상세 내용", "시간(분)"]
  const HeaderHeight: int := 25

  /** ARGB fill colours. */
  const HeaderFill: string := "FF00A9BB"
  const PracticeFill: string := "FFFFF4E6"
  const TheoryFill: string := "FFE3F2FD"
  const PartFill: string := "FFE6F7F9"

  datatype Column = A | B | C | D

  /**
   * A cell value. `DurationLine(m)` is the text '■ 진행시간: <h>시간' where
   * <h> is `(m / 60).toFixed(1)`, a floating-point rendering kept symbolic.
   */
  datatype Value = Num(n: int) | Str(s: string) | DurationLine(minutes: int)

  /** One worksheet row: the values and fills of A..D and the row height. */
  datatype RowView = RowView(
    a: Option<Value>, b: Option<Value>, c: Option<Value>, d: Option<Value>,
    fillA: Option<string>, fillB: Option<string>, fillC: Option<string>, fillD: Option<string>,
    height: Option<int>)

  const EmptyRow := RowView(None, None, None, None, None, None, None, None, None)

  /** `mergeCells('B<top>:B<bottom>')` */
  datatype Merge = Merge(column: Column, top: nat, bottom: nat)

  /** The observable content of a worksheet: its rows and its merged ranges. */
  datatype Sheet = Sheet(rows: map<nat, RowView>, merges: seq<Merge>)

  function ViewOf(s: Sheet, r: nat): RowView
  {
    if r in s.rows then s.rows[r] else EmptyRow
  }

  function SetCell(v: RowView, col: Column, x: Value): RowView
  {
    match col
    case A => v.(a := Some(x))
    case B => v.(b := Some(x))
    case C => v.(c := Some(x))
    case D => v.(d := Some(x))
  }

  function SetFillOf(v: RowView, col: Column, argb: string): RowView
  {
    match col
    case A => v.(fillA := Some(argb))
    case B => v.(fillB := Some(argb))
    case C => v.(fillC := Some(argb))
    case D => v.(fillD := Some(argb))
  }

  /** `Math.ceil(n / d)` for a non-negative `n`. */
  function CeilDiv(n: nat, d: nat): nat
    requires d > 0
  {
    (n + d - 1) / d
  }

  /** `CeilDiv(n, d)` is the least `q` with `q * d >= n`. */
  lemma CeilDivBounds(n: nat, d: nat)
    requires d > 0
    ensures CeilDiv(n, d) * d >= n
    ensures CeilDiv(n, d) == 0 || (CeilDiv(n, d) - 1) * d < n
  {
    var a := n + d - 1;
    var q := a / d;
    assert a == q * d + a % d && 0 <= a % d < d;
    if q > 0 {
      assert (q - 1) * d == q * d - d;
    }
  }

  /**
   * `Math.max(20, Math.ceil(text.length / perLine) * 15)`: 15 points per
   * line of `perLine` characters, at least 20 points.
   */
  function LineHeight(text: string, perLine: nat): int
    requires perLine > 0
  {
    var lines := CeilDiv(JsLength(text), perLine);
    if lines * 15 > 20 then lines * 15 else 20
  }

  /** The row is at least 20 points high and has a 15-point line for every `perLine` characters. */
  lemma LineHeightBounds(text: string, perLine: nat)
    requires perLine > 0
    ensures LineHeight(text, perLine) >= 20
    ensures JsLength(text) <= perLine * (LineHeight(text, perLine) / 15)
  {
    var lines := CeilDiv(JsLength(text), perLine);
    var h := LineHeight(text, perLine);
    CeilDivBounds(JsLength(text), perLine);
    assert lines <= h / 15;
    MulMonotone(perLine, lines, h / 15);
    assert perLine * lines == lines * perLine;
  }

  /** A longer text never gets a lower row. */
  lemma LineHeightMonotone(short: string, long: string, perLine: nat)
    requires perLine > 0 && JsLength(short) <= JsLength(long)
    ensures LineHeight(short, perLine) <= LineHeight(long, perLine)
  {
    CeilDivMonotone(JsLength(short), JsLength(long), perLine);
  }

  lemma CeilDivMonotone(m: nat, n: nat, d: nat)
    requires d > 0 && m <= n
    ensures CeilDiv(m, d) <= CeilDiv(n, d)
  {
    var a, b := m + d - 1, n + d - 1;
    var qa, qb := a / d, b / d;
    assert d * qa <= a && b < d * qb + d;
    assert d * qa < d * (qb + 1);
    MulCancel(d, qa, qb + 1);
  }

  lemma MulCancel(d: nat, x: nat, y: nat)
    requires d > 0 && d * x < d * y
    ensures x < y
  {
    if y <= x {
      MulMonotone(d, y, x);
    }
  }

  lemma {:induction false} MulMonotone(d: nat, x: nat, y: nat)
    requires x <= y
    ensures d * x <= d * y
    decreases y - x
  {
    if x < y {
      MulMonotone(d, x, y - 1);
      assert d * y == d * (y - 1) + d;
    }
  }

  /** The fill of column C for an item type: practice and theory are coloured, everything else is not. */
  function TypeFill(kind: Option<Kind>): (f: Option<string>)
    ensures f == Some(PracticeFill) <==> StyleOf(kind) == PracticeStyle
    ensures f == Some(TheoryFill) <==> StyleOf(kind) == TheoryStyle
    ensures f == None <==> StyleOf(kind) == Neutral
  {
    match kind
    case Some(Practice) => Some(PracticeFill)
    case Some(Theory) => Some(TheoryFill)
    case _ => None
  }

  function TitleLine(data: ExportData): string
  {
    "■ 강의명: " + data.title
  }

  /** `■ 학습목표: ${data.learningObjectives || '없음'}` */
  function ObjectivesLine(data: ExportData): string
  {
    "■ 학습목표: " + OrElse(data.objectives, "없음")
  }

  /** Rows 2..7: title, objectives, running time and the table header. */
  function HeaderSheet(data: ExportData): Sheet
  {
    Sheet(
      map[2 := EmptyRow.(b := Some(Str(TitleLine(data)))),
          3 := EmptyRow.(b := Some(Str(ObjectivesLine(data))), height := Some(LineHeight(data.objectives, 50))),
          4 := EmptyRow.(b := Some(DurationLine(data.duration))),
          HeaderRow := RowView(
            Some(Str(HeaderLabels[0])), Some(Str(HeaderLabels[1])), Some(Str(HeaderLabels[2])), Some(Str(HeaderLabels[3])),
            Some(HeaderFill), Some(HeaderFill), Some(HeaderFill), Some(HeaderFill), Some(HeaderHeight))],
      [])
  }

  /** The values and the height the item loop writes for `row`, in the order it writes them. */
  function WriteRowCells(v: RowView, row: Row): RowView
  {
    var v := SetCell(v, A, Num(row.number));
    var v := if row.first then SetCell(v, B, Str(row.title)) else v;
    var v := SetCell(SetCell(v, C, Str(row.details)), D, Num(row.minutes));
    v.(height := Some(LineHeight(row.details, 80)))
  }

  /** The type colour of column C, when the type has one. */
  function FillByKind(v: RowView, kind: Option<Kind>): RowView
  {
    match TypeFill(kind)
    case Some(f) => SetFillOf(v, C, f)
    case None => v
  }

  /** Practice and theory colour column C; no other type does. */
  lemma FillByKindCases(v: RowView, kind: Option<Kind>)
    ensures FillByKind(v, kind) ==
      if kind == Some(Practice) then SetFillOf(v, C, PracticeFill)
      else if kind == Some(Theory) then SetFillOf(v, C, TheoryFill)
      else v
  {
  }

  /** What the item loop does to sheet row `r` for `row`. */
  function WriteRowView(v: RowView, row: Row): RowView
  {
    FillByKind(WriteRowCells(v, row), row.kind)
  }

  function WriteRow(s: Sheet, row: Row, r: nat): Sheet
  {
    s.(rows := s.rows[r := WriteRowView(ViewOf(s, r), row)])
  }

  /** The first `j` items of part `p` (index `i`, `before` items ahead of it) written. */
  function WriteItems(s: Sheet, p: Part, i: nat, before: nat, j: nat): Sheet
    requires j <= |p.items|
  {
    if j == 0 then s
    else WriteRow(WriteItems(s, p, i, before, j - 1), RowOf(p, i, before, j - 1), FirstDataRow + before + j - 1)
  }

  /** After a part's items: merge B<top>:B<bottom> when it spans two rows or more, and colour B<top>. */
  function ClosePart(s: Sheet, top: nat, bottom: nat): Sheet
  {
    var merges := if top < bottom then s.merges + [Merge(B, top, bottom)] else s.merges;
    Sheet(s.rows[top := SetFillOf(ViewOf(s, top), B, PartFill)], merges)
  }

  /** Part `i` written after `before` items: its items, then the merge and part colour; nothing for a part without items. */
  function WritePartSheet(t: Sheet, p: Part, i: nat, before: nat): Sheet
  {
    if |p.items| == 0 then t
    else ClosePart(WriteItems(t, p, i, before, |p.items|), FirstDataRow + before, FirstDataRow + before + |p.items| - 1)
  }

  /** The sheet after the parts `ps`, in order. */
  function WriteParts(s: Sheet, ps: seq<Part>): Sheet
  {
    if ps == [] then s
    else
      var init := ps[..|ps| - 1];
      WritePartSheet(WriteParts(s, init), ps[|ps| - 1], |ps| - 1, ItemCount(init))
  }

  /** The part loop's step: part `i` written after the parts before it. */
  lemma WritePartsStep(s: Sheet, ps: seq<Part>, i: nat)
    requires i < |ps|
    ensures ItemCount(ps[..i + 1]) == ItemCount(ps[..i]) + |ps[i].items|
    ensures WriteParts(s, ps[..i + 1]) == WritePartSheet(WriteParts(s, ps[..i]), ps[i], i, ItemCount(ps[..i]))
  {
    var q := ps[..i + 1];
    assert q[..|q| - 1] == ps[..i] && q[|q| - 1] == ps[i];
  }

  /** The finished worksheet of an export. */
  function Workbook(data: ExportData): Sheet
  {
    WriteParts(HeaderSheet(data), data.parts)
  }

  /** Nothing at row `lo` or below it. */
  ghost predicate EmptyFrom(s: Sheet, lo: nat)
  {
    forall r: nat :: lo <= r ==> ViewOf(s, r) == EmptyRow
  }

  /**
   * The row the item loop writes for `row` on an empty row: number, part
   * title on the part's first row only, details, minutes, the type colour
   * in column C and the height for the details.
   */
  function Written(row: Row): RowView
  {
    RowView(Some(Num(row.number)), if row.first then Some(Str(row.title)) else None,
      Some(Str(row.details)), Some(Num(row.minutes)),
      None, None, TypeFill(row.kind), None, Some(LineHeight(row.details, 80)))
  }

  /** `Written`, and the part colour in column B on the part's first row. */
  function Finished(row: Row): RowView
  {
    Written(row).(fillB := if row.first then Some(PartFill) else None)
  }

  /** Writing row `r` changes no other row. */
  lemma WriteRowOther(s: Sheet, row: Row, r: nat, r': nat)
    requires r' != r
    ensures ViewOf(WriteRow(s, row, r), r') == ViewOf(s, r')
  {
  }

  /** On an empty row, the item loop leaves exactly `Written(row)`. */
  lemma WriteRowOnEmpty(s: Sheet, row: Row, r: nat)
    requires ViewOf(s, r) == EmptyRow
    ensures ViewOf(WriteRow(s, row, r), r) == Written(row)
  {
  }

  /** The item loop touches no row outside `8 + before` .. `8 + before + j - 1`. */
  lemma {:induction false} WriteItemsOutside(s: Sheet, p: Part, i: nat, before: nat, j: nat, r: nat)
    requires j <= |p.items|
    requires r < FirstDataRow + before || FirstDataRow + before + j <= r
    ensures ViewOf(WriteItems(s, p, i, before, j), r) == ViewOf(s, r)
  {
    if j > 0 {
      WriteItemsOutside(s, p, i, before, j - 1, r);
      WriteRowOther(WriteItems(s, p, i, before, j - 1), RowOf(p, i, before, j - 1), FirstDataRow + before + j - 1, r);
    }
  }

  /** On rows that were empty, the item loop leaves item `m` written on row `8 + before + m`. */
  lemma {:induction false} WriteItemsInside(s: Sheet, p: Part, i: nat, before: nat, j: nat, m: nat)
    requires m < j <= |p.items|
    requires EmptyFrom(s, FirstDataRow + before)
    ensures ViewOf(WriteItems(s, p, i, before, j), FirstDataRow + before + m) == Written(RowOf(p, i, before, m))
  {
    var r := FirstDataRow + before + j - 1;
    var s' := WriteItems(s, p, i, before, j - 1);
    assert WriteItems(s, p, i, before, j) == WriteRow(s', RowOf(p, i, before, j - 1), r);
    if m < j - 1 {
      WriteItemsInside(s, p, i, before, j - 1, m);
      WriteRowOther(s', RowOf(p, i, before, j - 1), r, FirstDataRow + before + m);
    } else {
      WriteItemsOutside(s, p, i, before, j - 1, r);
      assert ViewOf(s, r) == EmptyRow;
      WriteRowOnEmpty(s', RowOf(p, i, before, m), r);
    }
  }

  lemma {:induction false} WriteItemsKeepsMerges(s: Sheet, p: Part, i: nat, before: nat, j: nat)
    requires j <= |p.items|
    ensures WriteItems(s, p, i, before, j).merges == s.merges
  {
    if j > 0 {
      WriteItemsKeepsMerges(s, p, i, before, j - 1);
    }
  }

  /** Closing a part colours B of its top row and changes no other row. */
  lemma ClosePartRow(w: Sheet, top: nat, bottom: nat, r: nat)
    ensures ViewOf(ClosePart(w, top, bottom), r) == if r == top then ViewOf(w, r).(fillB := Some(PartFill)) else ViewOf(w, r)
  {
  }

  /**
   * One part on rows that were empty from its first row on: its rows hold
   * its items, finished, and every other row is as it was.
   */
  lemma WritePartRow(t: Sheet, p: Part, i: nat, before: nat, r: nat)
    requires EmptyFrom(t, FirstDataRow + before)
    ensures ViewOf(WritePartSheet(t, p, i, before), r) ==
      if r < FirstDataRow + before || FirstDataRow + before + |p.items| <= r then ViewOf(t, r)
      else Finished(RowOf(p, i, before, r - FirstDataRow - before))
  {
    var n := |p.items|;
    var top := FirstDataRow + before;
    if n > 0 {
      var w := WriteItems(t, p, i, before, n);
      ClosePartRow(w, top, top + n - 1, r);
      if r < top || top + n <= r {
        WriteItemsOutside(t, p, i, before, n, r);
      } else {
        WriteItemsInside(t, p, i, before, n, r - top);
      }
    }
  }

  /** One part adds, with two items or more, the merge over its B cells, and no other. */
  lemma WritePartMerges(t: Sheet, p: Part, i: nat, before: nat)
    ensures WritePartSheet(t, p, i, before).merges == t.merges + PartMerge(p, before)
  {
    WriteItemsKeepsMerges(t, p, i, before, |p.items|);
  }

  /** The part loop writes nothing above row 8. */
  lemma {:induction false} WritePartsAbove(h: Sheet, ps: seq<Part>, r: nat)
    requires EmptyFrom(h, FirstDataRow) && r < FirstDataRow
    ensures ViewOf(WriteParts(h, ps), r) == ViewOf(h, r)
  {
    if ps != [] {
      var n := |ps|;
      var init := ps[..n - 1];
      WritePartsEmptyBelow(h, init);
      WritePartRow(WriteParts(h, init), ps[n - 1], n - 1, ItemCount(init), r);
      WritePartsAbove(h, init, r);
    }
  }

  /**
   * Every part, in order, adds its rows below the ones before: on a sheet
   * empty from row 8, row `8 + k` ends up holding layout row `k`, finished.
   */
  lemma {:induction false} WritePartsRow(h: Sheet, ps: seq<Part>, k: nat)
    requires EmptyFrom(h, FirstDataRow) && k < |Layout(ps)|
    ensures ViewOf(WriteParts(h, ps), FirstDataRow + k) == Finished(Layout(ps)[k])
    decreases |ps|, 1
  {
    if k < ItemCount(ps[..|ps| - 1]) {
      WritePartsRowEarlier(h, ps, k);
    } else {
      WritePartsRowLast(h, ps, k);
    }
  }

  /** A row of an earlier part is left as the earlier parts wrote it. */
  lemma {:induction false} WritePartsRowEarlier(h: Sheet, ps: seq<Part>, k: nat)
    requires EmptyFrom(h, FirstDataRow) && ps != [] && k < ItemCount(ps[..|ps| - 1])
    ensures k < |Layout(ps)|
    ensures ViewOf(WriteParts(h, ps), FirstDataRow + k) == Finished(Layout(ps)[k])
    decreases |ps|, 0
  {
    var n := |ps|;
    var init := ps[..n - 1];
    var before := ItemCount(init);
    WritePartsEmptyBelow(h, init);
    WritePartRow(WriteParts(h, init), ps[n - 1], n - 1, before, FirstDataRow + k);
    WritePartsRow(h, init, k);
    assert Layout(ps)[k] == Layout(init)[k];
  }

  /** A row of the last part is the one that part writes. */
  lemma WritePartsRowLast(h: Sheet, ps: seq<Part>, k: nat)
    requires EmptyFrom(h, FirstDataRow) && ps != [] && ItemCount(ps[..|ps| - 1]) <= k < |Layout(ps)|
    ensures ViewOf(WriteParts(h, ps), FirstDataRow + k) == Finished(Layout(ps)[k])
  {
    var n := |ps|;
    var init := ps[..n - 1];
    var before := ItemCount(init);
    WritePartsEmptyBelow(h, init);
    WritePartRow(WriteParts(h, init), ps[n - 1], n - 1, before, FirstDataRow + k);
    LayoutAt(ps, n - 1, k - before);
  }

  /** On a sheet empty from row 8, nothing is written below the last item row. */
  lemma {:induction false} WritePartsEmptyBelow(h: Sheet, ps: seq<Part>)
    requires EmptyFrom(h, FirstDataRow)
    ensures EmptyFrom(WriteParts(h, ps), FirstDataRow + ItemCount(ps))
  {
    if ps != [] {
      var n := |ps|;
      var init := ps[..n - 1];
      var before := ItemCount(init);
      var t := WriteParts(h, init);
      WritePartsEmptyBelow(h, init);
      forall r: nat | FirstDataRow + ItemCount(ps) <= r
        ensures ViewOf(WriteParts(h, ps), r) == EmptyRow
      {
        WritePartRow(t, ps[n - 1], n - 1, before, r);
      }
    }
  }

  /** The item loop does not look at the owning part's index. */
  lemma WriteRowIgnoresPart(s: Sheet, row: Row, part: nat, r: nat)
    ensures WriteRow(s, row, r) == WriteRow(s, row.(part := part), r)
  {
    assert WriteRowView(ViewOf(s, r), row) == WriteRowView(ViewOf(s, r), row.(part := part));
  }

  /** What the item loop writes does not depend on the part's index. */
  lemma {:induction false} WriteItemsIgnoresIndex(s: Sheet, p: Part, i: nat, i': nat, before: nat, j: nat)
    requires j <= |p.items|
    ensures WriteItems(s, p, i, before, j) == WriteItems(s, p, i', before, j)
  {
    if j > 0 {
      var s' := WriteItems(s, p, i, before, j - 1);
      WriteItemsIgnoresIndex(s, p, i, i', before, j - 1);
      assert RowOf(p, i', before, j - 1) == RowOf(p, i, before, j - 1).(part := i');
      WriteRowIgnoresPart(s', RowOf(p, i, before, j - 1), i', FirstDataRow + before + j - 1);
    }
  }

  lemma WritePartSheetIgnoresIndex(t: Sheet, p: Part, i: nat, i': nat, before: nat)
    ensures WritePartSheet(t, p, i, before) == WritePartSheet(t, p, i', before)
  {
    WriteItemsIgnoresIndex(t, p, i, i', before, |p.items|);
  }

  /**
   * A part without items is skipped entirely: inserting one anywhere leaves
   * the sheet exactly as it was, with no gap in rows or numbering.
   */
  lemma {:induction false} EmptyPartSkipped(h: Sheet, a: seq<Part>, p: Part, c: seq<Part>)
    requires p.items == []
    ensures WriteParts(h, a + [p] + c) == WriteParts(h, a + c)
    decreases |c|
  {
    if c == [] {
      WritePartsSnoc(h, a, p);
      assert a + [p] + c == a + [p] && a + c == a;
    } else {
      var c', last := c[..|c| - 1], c[|c| - 1];
      assert a + [p] + c == (a + [p] + c') + [last] && a + c == (a + c') + [last];
      WritePartsSnoc(h, a + [p] + c', last);
      WritePartsSnoc(h, a + c', last);
      EmptyPartSkipped(h, a, p, c');
      ItemCountSkipsEmpty(a, p, c');
      WritePartSheetIgnoresIndex(WriteParts(h, a + c'), last, |a + [p] + c'|, |a + c'|, ItemCount(a + c'));
    }
  }

  /** The part loop's last pass. */
  lemma WritePartsSnoc(h: Sheet, pre: seq<Part>, last: Part)
    ensures WriteParts(h, pre + [last]) == WritePartSheet(WriteParts(h, pre), last, |pre|, ItemCount(pre))
  {
    assert (pre + [last])[..|pre|] == pre;
  }

  /** The merge a part asks for: its B cells, when it has two items or more. */
  function PartMerge(p: Part, before: nat): seq<Merge>
  {
    if |p.items| >= 2 then [Merge(B, FirstDataRow + before, FirstDataRow + before + |p.items| - 1)] else []
  }

  /** The merges over all parts, part after part. */
  function PartMerges(ps: seq<Part>): seq<Merge>
  {
    if ps == [] then [] else PartMerges(ps[..|ps| - 1]) + PartMerge(ps[|ps| - 1], ItemCount(ps[..|ps| - 1]))
  }

  /** Writing the parts adds exactly their merges, in part order. */
  lemma {:induction false} WritePartsMerges(h: Sheet, ps: seq<Part>)
    ensures WriteParts(h, ps).merges == h.merges + PartMerges(ps)
  {
    if ps != [] {
      var n := |ps|;
      WritePartsMerges(h, ps[..n - 1]);
      WriteItemsKeepsMerges(WriteParts(h, ps[..n - 1]), ps[n - 1], n - 1, ItemCount(ps[..n - 1]), |ps[n - 1].items|);
    }
  }

  /** The merged ranges lie in column B inside the table, in increasing order and without overlap. */
  lemma {:induction false} MergesOrdered(ps: seq<Part>)
    ensures forall a :: 0 <= a < |PartMerges(ps)| ==>
      PartMerges(ps)[a].column == B && FirstDataRow <= PartMerges(ps)[a].top < PartMerges(ps)[a].bottom < FirstDataRow + ItemCount(ps)
    ensures forall a, b :: 0 <= a < b < |PartMerges(ps)| ==> PartMerges(ps)[a].bottom < PartMerges(ps)[b].top
  {
    if ps != [] {
      var init := ps[..|ps| - 1];
      MergesOrdered(init);
    }
  }

  /** Every part with two items or more has its rows merged. */
  lemma {:induction false} MergesComplete(ps: seq<Part>, i: nat)
    requires i < |ps| && |ps[i].items| >= 2
    ensures Merge(B, FirstDataRow + Start(ps, i), FirstDataRow + Start(ps, i) + |ps[i].items| - 1) in PartMerges(ps)
  {
    var n := |ps|;
    if i < n - 1 {
      StartOfPrefix(ps, n - 1, i);
      MergesComplete(ps[..n - 1], i);
    }
  }

  /** Every merged range is the rows of one part with two items or more. */
  lemma {:induction false} MergesSound(ps: seq<Part>, m: Merge)
    requires m in PartMerges(ps)
    ensures exists i :: 0 <= i < |ps| && |ps[i].items| >= 2 && m == PartMerge(ps[i], Start(ps, i))[0]
  {
    var n := |ps|;
    var init := ps[..n - 1];
    if m in PartMerges(init) {
      MergesSound(init, m);
      var i :| 0 <= i < n - 1 && |init[i].items| >= 2 && m == PartMerge(init[i], Start(init, i))[0];
      StartOfPrefix(ps, n - 1, i);
      assert 0 <= i < |ps| && |ps[i].items| >= 2 && m == PartMerge(ps[i], Start(ps, i))[0];
    } else {
      assert 0 <= n - 1 < |ps| && |ps[n - 1].items| >= 2 && m == PartMerge(ps[n - 1], Start(ps, n - 1))[0];
    }
  }

  lemma HeaderSheetEmptyBelow(data: ExportData)
    ensures EmptyFrom(HeaderSheet(data), FirstDataRow)
  {
  }

  /**
   * Above the table the workbook holds the title, objectives ('없음' when
   * there are none) and running time in B2..B4, with row 3 tall enough for
   * the objectives at 50 characters a line, and the coloured header in row 7.
   */
  lemma WorkbookHeader(data: ExportData)
    ensures ViewOf(Workbook(data), 2) == EmptyRow.(b := Some(Str("■ 강의명: " + data.title)))
    ensures ViewOf(Workbook(data), 3).b == Some(Str("■ 학습목표: " + (if data.objectives == [] then "없음" else data.objectives)))
    ensures ViewOf(Workbook(data), 3).height == Some(LineHeight(data.objectives, 50))
    ensures ViewOf(Workbook(data), 4) == EmptyRow.(b := Some(DurationLine(data.duration)))
    ensures ViewOf(Workbook(data), HeaderRow) == RowView(
      Some(Str("번호")), Some(Str("파트명")), Some(Str("상세 내용")), Some(Str("시간(분)")),
      Some(HeaderFill), Some(HeaderFill), Some(HeaderFill), Some(HeaderFill), Some(25))
    ensures forall r: nat :: r < FirstDataRow && r !in {2, 3, 4, HeaderRow} ==> ViewOf(Workbook(data), r) == EmptyRow
  {
    HeaderSheetEmptyBelow(data);
    forall r: nat | r < FirstDataRow
      ensures ViewOf(Workbook(data), r) == ViewOf(HeaderSheet(data), r)
    {
      WritePartsAbove(HeaderSheet(data), data.parts, r);
    }
  }

  /** The finished sheet row of item `j` of part `p`, cell by cell. */
  function ItemRowView(p: Part, before: nat, j: nat): RowView
    requires j < |p.items|
  {
    var item := p.items[j];
    RowView(
      Some(Num(before + j + 1)),
      if j == 0 then Some(Str(p.title)) else None,
      Some(Str(item.details)),
      Some(Num(if item.duration.Some? then item.duration.value else 0)),
      None,
      if j == 0 then Some(PartFill) else None,
      if item.kind == Some(Practice) then Some(PracticeFill) else if item.kind == Some(Theory) then Some(TheoryFill) else None,
      None,
      Some(LineHeight(item.details, 80)))
  }

  lemma FinishedRowOf(p: Part, i: nat, before: nat, j: nat)
    requires j < |p.items|
    ensures Finished(RowOf(p, i, before, j)) == ItemRowView(p, before, j)
  {
  }

  /**
   * Item `j` of part `i` sits on sheet row `8 + Start(parts, i) + j`: its
   * running number, the part title on the part's first row only, its
   * details and minutes, the type colour in C, the part colour in B on the
   * first row, and a height of 15 points per 80 characters (at least 20).
   */
  lemma WorkbookItem(data: ExportData, i: nat, j: nat)
    requires i < |data.parts| && j < |data.parts[i].items|
    ensures ViewOf(Workbook(data), FirstDataRow + Start(data.parts, i) + j) == ItemRowView(data.parts[i], Start(data.parts, i), j)
  {
    var ps := data.parts;
    var k := Start(ps, i) + j;
    var row := RowOf(ps[i], i, Start(ps, i), j);
    assert k < |Layout(ps)| && Layout(ps)[k] == row by { LayoutAt(ps, i, j); }
    assert ViewOf(Workbook(data), FirstDataRow + k) == Finished(row) by { WorkbookRow(data, k); }
    FinishedRowOf(ps[i], i, Start(ps, i), j);
  }

  /** Row `k` of the layout is sheet row `8 + k`, finished. */
  lemma WorkbookRow(data: ExportData, k: nat)
    requires k < |Layout(data.parts)|
    ensures ViewOf(Workbook(data), FirstDataRow + k) == Finished(Layout(data.parts)[k])
  {
    HeaderSheetEmptyBelow(data);
    WritePartsRow(HeaderSheet(data), data.parts, k);
  }

  /** Below the last item row the workbook is empty. */
  lemma WorkbookEndsAfterItems(data: ExportData)
    ensures EmptyFrom(Workbook(data), FirstDataRow + ItemCount(data.parts))
  {
    HeaderSheetEmptyBelow(data);
    WritePartsEmptyBelow(HeaderSheet(data), data.parts);
  }

  /**
   * The workbook's merges are exactly the B ranges of the parts with two
   * items or more: ordered, disjoint and inside the table.
   */
  lemma WorkbookMerges(data: ExportData, m: Merge)
    ensures m in Workbook(data).merges <==>
      exists i :: 0 <= i < |data.parts| && |data.parts[i].items| >= 2 &&
        m == Merge(B, FirstDataRow + Start(data.parts, i), FirstDataRow + Start(data.parts, i) + |data.parts[i].items| - 1)
  {
    WorkbookMergesArePartMerges(data);
    PartMergesExactly(data.parts, m);
  }

  lemma WorkbookMergesArePartMerges(data: ExportData)
    ensures Workbook(data).merges == PartMerges(data.parts)
  {
    WritePartsMerges(HeaderSheet(data), data.parts);
  }

  /** A range is merged exactly when it is the B rows of a part with two items or more. */
  lemma PartMergesExactly(ps: seq<Part>, m: Merge)
    ensures m in PartMerges(ps) <==>
      exists i :: 0 <= i < |ps| && |ps[i].items| >= 2 &&
        m == Merge(B, FirstDataRow + Start(ps, i), FirstDataRow + Start(ps, i) + |ps[i].items| - 1)
  {
    if m in PartMerges(ps) {
      MergesSound(ps, m);
      var i :| 0 <= i < |ps| && |ps[i].items| >= 2 && m == PartMerge(ps[i], Start(ps, i))[0];
      assert m == Merge(B, FirstDataRow + Start(ps, i), FirstDataRow + Start(ps, i) + |ps[i].items| - 1);
    }
    if exists i :: 0 <= i < |ps| && |ps[i].items| >= 2 &&
        m == Merge(B, FirstDataRow + Start(ps, i), FirstDataRow + Start(ps, i) + |ps[i].items| - 1) {
      var i :| 0 <= i < |ps| && |ps[i].items| >= 2 &&
        m == Merge(B, FirstDataRow + Start(ps, i), FirstDataRow + Start(ps, i) + |ps[i].items| - 1);
      MergesComplete(ps, i);
    }
  }

  /** The worksheet being filled in, with the ExcelJS operations the exporter uses. */
  class Worksheet {
    var name: string
    var widths: seq<int>
    var rows: map<nat, RowView>
    var merges: seq<Merge>

    function Snapshot(): Sheet
      reads this
    {
      Sheet(rows, merges)
    }

    /** `workbook.addWorksheet(name)` followed by the column widths. */
    constructor (name: string)
      ensures this.name == name && widths == ColumnWidths
      ensures Snapshot() == Sheet(map[], [])
    {
      this.name := name;
      widths := ColumnWidths;
      rows, merges := map[], [];
    }

    /** `getCell('<col><r>').value = x` */
    method SetValue(r: nat, col: Column, x: Value)
      modifies this
      ensures rows == old(rows)[r := SetCell(old(ViewOf(Snapshot(), r)), col, x)]
      ensures merges == old(merges) && name == old(name) && widths == old(widths)
    {
      rows := rows[r := SetCell(ViewOf(Snapshot(), r), col, x)];
    }

    /** `getCell('<col><r>').fill = { type: 'pattern', pattern: 'solid', fgColor: { argb } }` */
    method SetFill(r: nat, col: Column, argb: string)
      modifies this
      ensures rows == old(rows)[r := SetFillOf(old(ViewOf(Snapshot(), r)), col, argb)]
      ensures merges == old(merges) && name == old(name) && widths == old(widths)
    {
      rows := rows[r := SetFillOf(ViewOf(Snapshot(), r), col, argb)];
    }

    /** `getRow(r).values = [a, b, c, d]` */
    method SetRowValues(r: nat, a: Value, b: Value, c: Value, d: Value)
      modifies this
      ensures rows == old(rows)[r := old(ViewOf(Snapshot(), r)).(a := Some(a), b := Some(b), c := Some(c), d := Some(d))]
      ensures merges == old(merges) && name == old(name) && widths == old(widths)
    {
      rows := rows[r := ViewOf(Snapshot(), r).(a := Some(a), b := Some(b), c := Some(c), d := Some(d))];
    }

    /** `getRow(r).height = h` */
    method SetHeight(r: nat, h: int)
      modifies this
      ensures rows == old(rows)[r := old(ViewOf(Snapshot(), r)).(height := Some(h))]
      ensures merges == old(merges) && name == old(name) && widths == old(widths)
    {
      rows := rows[r := ViewOf(Snapshot(), r).(height := Some(h))];
    }

    /** `mergeCells` over one column. */
    method MergeCells(col: Column, top: nat, bottom: nat)
      modifies this
      ensures merges == old(merges) + [Merge(col, top, bottom)]
      ensures rows == old(rows) && name == old(name) && widths == old(widths)
    {
      merges := merges + [Merge(col, top, bottom)];
    }
  }

  /** B2..B4 of a fresh worksheet: title, objectives (with the height of row 3) and running time. */
  method WriteTitleBlock(sheet: Worksheet, data: ExportData)
    requires sheet.Snapshot() == Sheet(map[], [])
    modifies sheet
    ensures sheet.name == old(sheet.name) && sheet.widths == old(sheet.widths) && sheet.merges == []
    ensures var h := HeaderSheet(data).rows; sheet.rows == map[2 := h[2], 3 := h[3], 4 := h[4]]
  {
    ghost var h := HeaderSheet(data).rows;
    sheet.SetValue(2, B, Str(TitleLine(data)));
    assert sheet.rows == map[2 := h[2]];
    sheet.SetValue(3, B, Str(ObjectivesLine(data)));
    sheet.SetHeight(3, LineHeight(data.objectives, 50));
    assert sheet.rows == map[2 := h[2], 3 := h[3]];
    sheet.SetValue(4, B, DurationLine(data.duration));
  }

  /** Row 7: the four column labels, the header height and the header colour. */
  method WriteTableHeader(sheet: Worksheet)
    requires HeaderRow !in sheet.rows
    modifies sheet
    ensures sheet.name == old(sheet.name) && sheet.widths == old(sheet.widths) && sheet.merges == old(sheet.merges)
    ensures sheet.rows == old(sheet.rows)[HeaderRow := RowView(
      Some(Str(HeaderLabels[0])), Some(Str(HeaderLabels[1])), Some(Str(HeaderLabels[2])), Some(Str(HeaderLabels[3])),
      Some(HeaderFill), Some(HeaderFill), Some(HeaderFill), Some(HeaderFill), Some(HeaderHeight))]
  {
    ghost var rows0 := sheet.rows;
    sheet.SetRowValues(HeaderRow, Str(HeaderLabels[0]), Str(HeaderLabels[1]), Str(HeaderLabels[2]), Str(HeaderLabels[3]));
    sheet.SetHeight(HeaderRow, HeaderHeight);
    ghost var v := RowView(
      Some(Str(HeaderLabels[0])), Some(Str(HeaderLabels[1])), Some(Str(HeaderLabels[2])), Some(Str(HeaderLabels[3])),
      None, None, None, None, Some(HeaderHeight));
    assert sheet.rows == rows0[HeaderRow := v];
    sheet.SetFill(HeaderRow, A, HeaderFill);
    sheet.SetFill(HeaderRow, B, HeaderFill);
    v := v.(fillA := Some(HeaderFill), fillB := Some(HeaderFill));
    assert sheet.rows == rows0[HeaderRow := v];
    sheet.SetFill(HeaderRow, C, HeaderFill);
    sheet.SetFill(HeaderRow, D, HeaderFill);
  }

  /** One pass of the item loop: item `j` of part `i`, with `before` items ahead of the part. */
  method WriteItem(sheet: Worksheet, part: Part, ghost i: nat, ghost before: nat, j: nat, rowNumber: nat, itemNumber: int)
    requires j < |part.items| && itemNumber == before + j + 1
    modifies sheet
    ensures sheet.name == old(sheet.name) && sheet.widths == old(sheet.widths)
    ensures sheet.Snapshot() == WriteRow(old(sheet.Snapshot()), RowOf(part, i, before, j), rowNumber)
  {
    var item := part.items[j];
    ghost var rows0 := sheet.rows;
    ghost var row := RowOf(part, i, before, j);
    ghost var v0 := ViewOf(sheet.Snapshot(), rowNumber);
    WriteCells(sheet, part, i, before, j, rowNumber, itemNumber);
    ColourDetails(sheet, rowNumber, item.kind);
    assert sheet.rows == rows0[rowNumber := WriteRowView(v0, row)];
  }

  /** Number, part title on the part's first row, details, minutes and row height. */
  method WriteCells(sheet: Worksheet, part: Part, ghost i: nat, ghost before: nat, j: nat, rowNumber: nat, itemNumber: int)
    requires j < |part.items| && itemNumber == before + j + 1
    modifies sheet
    ensures sheet.name == old(sheet.name) && sheet.widths == old(sheet.widths) && sheet.merges == old(sheet.merges)
    ensures sheet.rows == old(sheet.rows)[rowNumber := WriteRowCells(old(ViewOf(sheet.Snapshot(), rowNumber)), RowOf(part, i, before, j))]
  {
    var item := part.items[j];
    ghost var rows0 := sheet.rows;
    ghost var row := RowOf(part, i, before, j);
    ghost var v0 := ViewOf(sheet.Snapshot(), rowNumber);
    ghost var v := SetCell(v0, A, Num(row.number));
    sheet.SetValue(rowNumber, A, Num(itemNumber));
    assert sheet.rows == rows0[rowNumber := v];
    if j == 0 {
      sheet.SetValue(rowNumber, B, Str(part.title));
      v := SetCell(v, B, Str(row.title));
      assert sheet.rows == rows0[rowNumber := v];
    }
    sheet.SetValue(rowNumber, C, Str(item.details));
    sheet.SetValue(rowNumber, D, Num(Minutes(item)));
    sheet.SetHeight(rowNumber, LineHeight(item.details, 80));
    v := SetCell(SetCell(v, C, Str(row.details)), D, Num(row.minutes)).(height := Some(LineHeight(row.details, 80)));
    assert sheet.rows == rows0[rowNumber := v];
    assert v == WriteRowCells(v0, row);
  }

  /** The background of C for a practice or theory item; other types keep none. */
  method ColourDetails(sheet: Worksheet, rowNumber: nat, kind: Option<Kind>)
    requires rowNumber in sheet.rows
    modifies sheet
    ensures sheet.name == old(sheet.name) && sheet.widths == old(sheet.widths) && sheet.merges == old(sheet.merges)
    ensures sheet.rows == old(sheet.rows)[rowNumber := FillByKind(old(ViewOf(sheet.Snapshot(), rowNumber)), kind)]
  {
    FillByKindCases(ViewOf(sheet.Snapshot(), rowNumber), kind);
    if kind == Some(Practice) {
      sheet.SetFill(rowNumber, C, PracticeFill);
    } else if kind == Some(Theory) {
      sheet.SetFill(rowNumber, C, TheoryFill);
    }
  }

  /**
   * One pass of the part loop: the items of part `i`, then the merge and
   * the part colour; a part without items is skipped. Returns the advanced
   * row and item counters.
   */
  method WritePart(sheet: Worksheet, part: Part, ghost i: nat, rowNumber: nat, itemNumber: int)
    returns (nextRow: nat, nextItem: int)
    requires rowNumber >= FirstDataRow && itemNumber == rowNumber - 7
    modifies sheet
    ensures sheet.name == old(sheet.name) && sheet.widths == old(sheet.widths)
    ensures nextRow == rowNumber + |part.items| && nextItem == nextRow - 7
    ensures sheet.Snapshot() == WritePartSheet(old(sheet.Snapshot()), part, i, rowNumber - FirstDataRow)
  {
    nextRow, nextItem := rowNumber, itemNumber;
    var startRow := rowNumber;
    var itemCount := |part.items|;
    if itemCount == 0 {
      return;
    }
    ghost var before := startRow - FirstDataRow;
    var j := 0;
    while j < itemCount
      invariant j <= itemCount
      invariant nextRow == startRow + j && nextItem == nextRow - 7
      invariant sheet.name == old(sheet.name) && sheet.widths == old(sheet.widths)
      invariant sheet.Snapshot() == WriteItems(old(sheet.Snapshot()), part, i, before, j)
    {
      WriteItem(sheet, part, i, before, j, nextRow, nextItem);
      nextRow := nextRow + 1;
      nextItem := nextItem + 1;
      j := j + 1;
    }
    var endRow := nextRow - 1;
    if startRow < endRow {
      sheet.MergeCells(B, startRow, endRow);
    }
    sheet.SetFill(startRow, B, PartFill);
  }

  /**
   * `exportCurriculumToExcel`: fills a fresh worksheet and names the
   * download. Writing the file and triggering the download are left out.
   */
  method ExportExcel(data: ExportData) returns (sheet: Worksheet, filename: string)
    ensures fresh(sheet)
    ensures sheet.name == SheetName && sheet.widths == ColumnWidths
    ensures sheet.Snapshot() == Workbook(data)
    ensures filename == ExcelFilename(data.title)
  {
    sheet := new Worksheet(SheetName);
    WriteTitleBlock(sheet, data);
    WriteTableHeader(sheet);
    assert sheet.Snapshot() == HeaderSheet(data);
    var parts := data.parts;
    var rowNumber: nat := FirstDataRow;
    var itemNumber := 1;
    var i := 0;
    while i < |parts|
      invariant i <= |parts|
      invariant rowNumber == FirstDataRow + ItemCount(parts[..i]) && itemNumber == rowNumber - 7
      invariant sheet.name == SheetName && sheet.widths == ColumnWidths
      invariant sheet.Snapshot() == WriteParts(HeaderSheet(data), parts[..i])
    {
      WritePartsStep(HeaderSheet(data), parts, i);
      rowNumber, itemNumber := WritePart(sheet, parts[i], i, rowNumber, itemNumber);
      i := i + 1;
    }
    assert parts[..i] == parts;
    filename := ExcelFilename(data.title);
  }
}
