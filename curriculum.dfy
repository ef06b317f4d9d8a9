/**
 * The curriculum document: ordered parts, each holding ordered timed items
 * (`ContentItem` and `CurriculumPart` of lib/data.ts), and the export input
 * that the three exporters take.
 *
 * JavaScript's falsy values are modelled as follows: an absent `duration`
 * or `type` is `None`; an absent or empty id, title or text is the empty
 * string.
 */
module Curriculum {
  import opened Wrappers

  /** The item `type` values '실습' (practice), '시연' (demo) and '이론' (theory). */
  datatype Kind = Practice | Demo | Theory

  function KindLabel(k: Kind): (s: string)
  {
    match k
    case Practice => "실습"
    case Demo => "시연"
    case Theory => "이론"
  }

  datatype Item = Item(id: string, details: string, duration: Option<int>, kind: Option<Kind>)

  datatype Part = Part(id: string, title: string, items: seq<Item>)

  /** What every exporter receives: `{title, learningObjectives, duration, parts}`. */
  datatype ExportData = ExportData(title: string, objectives: string, duration: int, parts: seq<Part>)

  /** `item.duration || 0` */
  function Minutes(item: Item): (m: int)
    ensures item.duration == None ==> m == 0
    ensures item.duration.Some? ==> m == item.duration.value
  {
    item.duration.GetOr(0)
  }

  /** `item.type || '시연'`: the label shown for an item's type. */
  function TypeLabel(kind: Option<Kind>): (s: string)
    ensures kind == None ==> s == KindLabel(Demo)
  {
    KindLabel(kind.GetOr(Demo))
  }

  /** `s || fallback` for a string. */
  function OrElse(s: string, fallback: string): (r: string)
    ensures s != [] ==> r == s
    ensures s == [] ==> r == fallback
  {
    if s == [] then fallback else s
  }

  /**
   * The three-way visual classification every view applies to an item's
   * type: '실습', '이론', and everything else (including no type).
   */
  datatype Style = PracticeStyle | TheoryStyle | Neutral

  function StyleOf(kind: Option<Kind>): (st: Style)
    ensures st == PracticeStyle <==> kind == Some(Practice)
    ensures st == TheoryStyle <==> kind == Some(Theory)
  {
    match kind
    case Some(Practice) => PracticeStyle
    case Some(Theory) => TheoryStyle
    case _ => Neutral
  }

  /** An unset type is styled exactly like a demo. */
  lemma UnsetStyledAsDemo()
    ensures StyleOf(None) == StyleOf(Some(Demo)) == Neutral
    ensures TypeLabel(None) == TypeLabel(Some(Demo))
  {
  }

  /** Classifying by the displayed label gives the same three-way split as classifying by type. */
  lemma StyleFromLabel(kind: Option<Kind>)
    ensures StyleOf(kind) == PracticeStyle <==> TypeLabel(kind) == "실습"
    ensures StyleOf(kind) == TheoryStyle <==> TypeLabel(kind) == "이론"
  {
    assert "실습" != "시연" && "실습" != "이론" && "이론" != "시연" by {
      assert "실습"[0] != "시연"[0] && "이론"[0] != "시연"[0] && "실습"[0] != "이론"[0];
    }
  }

  /** Number of items over all parts. */
  function ItemCount(ps: seq<Part>): nat
  {
    if ps == [] then 0 else ItemCount(ps[..|ps| - 1]) + |ps[|ps| - 1].items|
  }

  /** All items, part after part (`parts.flatMap(p => p.items)`). */
  function Items(ps: seq<Part>): (r: seq<Item>)
    ensures |r| == ItemCount(ps)
  {
    if ps == [] then [] else Items(ps[..|ps| - 1]) + ps[|ps| - 1].items
  }

  /** Index of the first row of part `i`: the number of items in the parts before it. */
  function Start(ps: seq<Part>, i: nat): nat
    requires i <= |ps|
  {
    ItemCount(ps[..i])
  }

  /** Each part's rows follow right after the rows of the parts before it. */
  lemma StartNext(ps: seq<Part>, i: nat)
    requires i < |ps|
    ensures Start(ps, i + 1) == Start(ps, i) + |ps[i].items|
  {
    assert ps[..i + 1][..i] == ps[..i];
  }

  /** Parts occupy disjoint, increasing row ranges that end within the document. */
  lemma {:induction false} StartMonotone(ps: seq<Part>, i: nat, i': nat)
    requires i < i' <= |ps|
    ensures Start(ps, i) + |ps[i].items| <= Start(ps, i')
    decreases i' - i
  {
    StartNext(ps, i);
    if i + 1 < i' {
      StartMonotone(ps, i + 1, i');
      StartNext(ps, i + 1);
    }
  }

  /** Dropping later parts does not move the earlier ones. */
  lemma StartOfPrefix(ps: seq<Part>, n: nat, i: nat)
    requires i <= n <= |ps|
    ensures Start(ps[..n], i) == Start(ps, i)
  {
    assert ps[..n][..i] == ps[..i];
  }

  /** A part without items adds nothing to the item count, wherever it stands. */
  lemma {:induction false} ItemCountSkipsEmpty(a: seq<Part>, p: Part, c: seq<Part>)
    requires p.items == []
    ensures ItemCount(a + [p] + c) == ItemCount(a + c)
    decreases |c|
  {
    if c == [] {
      assert a + [p] + c == a + [p] && (a + [p])[..|a|] == a && a + c == a;
    } else {
      var c' := c[..|c| - 1];
      assert (a + [p] + c)[..|a + [p] + c| - 1] == a + [p] + c';
      assert (a + c)[..|a + c| - 1] == a + c';
      ItemCountSkipsEmpty(a, p, c');
    }
  }

  lemma StartAll(ps: seq<Part>)
    ensures Start(ps, |ps|) == ItemCount(ps)
  {
    assert ps[..|ps|] == ps;
  }
}
