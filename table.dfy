/**
 * The render rows that all three exporters derive, each with its own
 * counter loop, from the parts of a curriculum: one row per item, numbered
 * 1..K over all parts in order, carrying the owning part, whether it is the
 * part's first row (where the part title is shown), the part's item count
 * (the extent of the merge / rowspan) and the item's details, minutes and
 * type. A part without items contributes no row.
 */
module Table {
  import opened Wrappers
  import opened Curriculum

  datatype Row = Row(
    number: nat,       // 1-based, counted over items only
    part: nat,         // index of the owning part
    title: string,     // the owning part's title
    first: bool,       // `index === 0`
    span: nat,         // `part.items.length`
    details: string,
    minutes: int,      // `item.duration || 0`
    kind: Option<Kind>)

  /** The row of item `j` of part `p` (part index `i`), when `before` items precede the part. */
  function RowOf(p: Part, i: nat, before: nat, j: nat): Row
    requires j < |p.items|
  {
    var item := p.items[j];
    Row(before + j + 1, i, p.title, j == 0, |p.items|, item.details, Minutes(item), item.kind)
  }

  function PartRows(p: Part, i: nat, before: nat): (r: seq<Row>)
    ensures |r| == |p.items|
    ensures forall j :: 0 <= j < |r| ==> r[j] == RowOf(p, i, before, j)
  {
    seq(|p.items|, j requires 0 <= j < |p.items| => RowOf(p, i, before, j))
  }

  /** The shared row sequence of a document. */
  function Layout(ps: seq<Part>): (r: seq<Row>)
    ensures |r| == ItemCount(ps)
    ensures forall k :: 0 <= k < |r| ==> r[k].number == k + 1 && r[k].part < |ps|
  {
    if ps == [] then []
    else
      var init := Layout(ps[..|ps| - 1]);
      init + PartRows(ps[|ps| - 1], |ps| - 1, |init|)
  }

  /** The rows of the first `i + 1` parts: those of the first `i`, then part `i`'s own. */
  lemma LayoutNextPart(ps: seq<Part>, i: nat)
    requires i < |ps|
    ensures Layout(ps[..i + 1]) == Layout(ps[..i]) + PartRows(ps[i], i, ItemCount(ps[..i]))
  {
    var q := ps[..i + 1];
    assert q[..|q| - 1] == ps[..i] && q[|q| - 1] == ps[i];
  }

  /** Before the first item of part `i`, the rows are those of the parts before it. */
  lemma LayoutPartBegins(ps: seq<Part>, i: nat)
    requires i < |ps|
    ensures Layout(ps[..i]) == Layout(ps[..i]) + PartRows(ps[i], i, ItemCount(ps[..i]))[..0]
  {
    assert PartRows(ps[i], i, ItemCount(ps[..i]))[..0] == [];
  }

  /** After the last item of part `i`, the rows are those of the first `i + 1` parts. */
  lemma LayoutPartEnds(ps: seq<Part>, i: nat, done: seq<Row>)
    requires i < |ps|
    requires done == Layout(ps[..i]) + PartRows(ps[i], i, ItemCount(ps[..i]))[..|ps[i].items|]
    ensures done == Layout(ps[..i + 1])
  {
    var rs := PartRows(ps[i], i, ItemCount(ps[..i]));
    assert rs[..|ps[i].items|] == rs;
    LayoutNextPart(ps, i);
  }

  /**
   * The render rows after one more item of part `i`: the loops of the
   * exporters grow the rows one item at a time.
   */
  lemma LayoutGrows(ps: seq<Part>, i: nat, j: nat, done: seq<Row>)
    requires i < |ps| && j < |ps[i].items|
    requires done == Layout(ps[..i]) + PartRows(ps[i], i, ItemCount(ps[..i]))[..j]
    ensures done + [RowOf(ps[i], i, ItemCount(ps[..i]), j)] == Layout(ps[..i]) + PartRows(ps[i], i, ItemCount(ps[..i]))[..j + 1]
  {
    var rs := PartRows(ps[i], i, ItemCount(ps[..i]));
    assert rs[..j + 1] == rs[..j] + [rs[j]];
  }

  /** The rows of the first `j + 1` items of a part. */
  lemma PartRowsNext(p: Part, i: nat, before: nat, j: nat)
    requires j < |p.items|
    ensures PartRows(p, i, before)[..j + 1] == PartRows(p, i, before)[..j] + [RowOf(p, i, before, j)]
  {
  }

  lemma LayoutAll(ps: seq<Part>)
    ensures Layout(ps[..|ps|]) == Layout(ps)
  {
    assert ps[..|ps|] == ps;
  }

  /** Item `j` of part `i` is row `Start(ps, i) + j`. */
  lemma {:induction false} LayoutAt(ps: seq<Part>, i: nat, j: nat)
    requires i < |ps| && j < |ps[i].items|
    ensures Start(ps, i) + j < |Layout(ps)|
    ensures Layout(ps)[Start(ps, i) + j] == RowOf(ps[i], i, Start(ps, i), j)
  {
    var n := |ps|;
    var init := ps[..n - 1];
    if i == n - 1 {
      assert ps[..i] == init;
    } else {
      assert ps[..i] == init[..i] && init[i] == ps[i];
      LayoutAt(init, i, j);
    }
  }

  /** Row `k` belongs to exactly one part, and is that part's item `k - Start`. */
  lemma {:induction false} LayoutOwner(ps: seq<Part>, k: nat)
    requires k < |Layout(ps)|
    ensures var i := Layout(ps)[k].part;
      && i < |ps|
      && Start(ps, i) <= k < Start(ps, i) + |ps[i].items|
      && Layout(ps)[k] == RowOf(ps[i], i, Start(ps, i), k - Start(ps, i))
  {
    var n := |ps|;
    var init := ps[..n - 1];
    if k < |Layout(init)| {
      LayoutOwner(init, k);
      var i := Layout(init)[k].part;
      assert ps[..i] == init[..i] && init[i] == ps[i];
    } else {
      assert ps[..n - 1] == init;
    }
  }

  /** The title of part `i` is shown on exactly one row when the part has items, and on none otherwise. */
  lemma TitleOncePerPart(ps: seq<Part>, i: nat, k: nat)
    requires k < |Layout(ps)|
    ensures Layout(ps)[k].part == i && Layout(ps)[k].first
      <==> i < |ps| && |ps[i].items| > 0 && k == Start(ps, i)
  {
    LayoutOwner(ps, k);
    if i < |ps| && |ps[i].items| > 0 && k == Start(ps, i) {
      LayoutAt(ps, i, 0);
    }
  }

  /** A part without items owns no row. */
  lemma EmptyPartHasNoRows(ps: seq<Part>, i: nat, k: nat)
    requires i < |ps| && ps[i].items == [] && k < |Layout(ps)|
    ensures Layout(ps)[k].part != i
  {
    LayoutOwner(ps, k);
  }

  /** Two part-title rows are at least the first part's item count apart. */
  lemma FirstRowsApart(ps: seq<Part>, k1: nat, k2: nat)
    requires k1 < k2 < |Layout(ps)|
    requires Layout(ps)[k1].first && Layout(ps)[k2].first
    ensures k1 + Layout(ps)[k1].span <= k2
  {
    LayoutOwner(ps, k1);
    LayoutOwner(ps, k2);
    var i1, i2 := Layout(ps)[k1].part, Layout(ps)[k2].part;
    if i2 < i1 {
      StartMonotone(ps, i2, i1);
    } else if i1 < i2 {
      StartMonotone(ps, i1, i2);
    }
  }

  /** The rows of a part all lie inside the document. */
  lemma SpanFits(ps: seq<Part>, k: nat)
    requires k < |Layout(ps)| && Layout(ps)[k].first
    ensures k + Layout(ps)[k].span <= |Layout(ps)|
  {
    LayoutOwner(ps, k);
    var i := Layout(ps)[k].part;
    if i + 1 < |ps| {
      StartMonotone(ps, i, |ps|);
    } else {
      StartNext(ps, i);
    }
    StartAll(ps);
  }

  /** Sum of the item counts written on part-title rows (the HTML `rowspan`s). */
  function SpanSum(rows: seq<Row>): nat
  {
    if rows == [] then 0
    else SpanSum(rows[..|rows| - 1]) + (if rows[|rows| - 1].first then rows[|rows| - 1].span else 0)
  }

  lemma {:induction false} SpanSumAppend(a: seq<Row>, b: seq<Row>)
    ensures SpanSum(a + b) == SpanSum(a) + SpanSum(b)
    decreases |b|
  {
    if b == [] {
      assert a + b == a;
    } else {
      assert (a + b)[..|a + b| - 1] == a + b[..|b| - 1];
      SpanSumAppend(a, b[..|b| - 1]);
    }
  }

  lemma {:induction false} SpanSumPartPrefix(p: Part, i: nat, before: nat, m: nat)
    requires m <= |p.items|
    ensures SpanSum(PartRows(p, i, before)[..m]) == if m == 0 then 0 else |p.items|
  {
    if m > 0 {
      var rs := PartRows(p, i, before);
      assert rs[..m][..m - 1] == rs[..m - 1];
      SpanSumPartPrefix(p, i, before, m - 1);
    }
  }

  /** The rowspans of the part cells add up to the number of rows. */
  lemma {:induction false} SpanSumIsRowCount(ps: seq<Part>)
    ensures SpanSum(Layout(ps)) == |Layout(ps)|
  {
    if ps != [] {
      var n := |ps|;
      var init := Layout(ps[..n - 1]);
      var rs := PartRows(ps[n - 1], n - 1, |init|);
      SpanSumIsRowCount(ps[..n - 1]);
      SpanSumAppend(init, rs);
      SpanSumPartPrefix(ps[n - 1], n - 1, |init|, |rs|);
      assert rs[..|rs|] == rs;
    }
  }

  /** Appending a part without items adds no row and leaves numbering as it was. */
  lemma AppendEmptyPart(ps: seq<Part>, p: Part)
    requires p.items == []
    ensures Layout(ps + [p]) == Layout(ps)
  {
    assert (ps + [p])[..|ps|] == ps;
  }
}
