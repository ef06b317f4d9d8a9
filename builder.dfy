/**
 * The curriculum builder page (app/builder/page.tsx): loading a stored
 * curriculum into editable parts, the part and item handlers, the target
 * choice of a content-library add, and the save validation.
 *
 * Each handler computes a new parts list with `map`, `filter` or spread;
 * those computations are the functions below. The page holds the list and
 * replaces it on every handler call: that is the `BuilderPage` class.
 *
 * `crypto.randomUUID()` is modelled by a supply `uuid: nat -> string` and a
 * counter of the ids drawn so far: the n-th draw is `uuid(n)`. That the
 * draws differ from each other is stated as the supply being injective.
 */
module Builder {
  import opened Wrappers
  import opened Text
  import opened Curriculum
  import opened Table
  import opened Lists
  import opened Storage
  import Dashboard

  // ---------------------------------------------------------------------
  // Loading (`loadCurriculum`)
  // ---------------------------------------------------------------------

  /** `{id: crypto.randomUUID(), details: item.details, duration: item.duration || 0}` */
  function LoadItem(item: Item, id: string): Item
  {
    Item(id, item.details, Some(Minutes(item)), None)
  }

  /** Whether loading the part draws an id for the part itself (`part.id || crypto.randomUUID()`). */
  function IdDraw(p: StoredPart): nat
  {
    if p.id == "" then 1 else 0
  }

  /** How many ids loading a stored part draws: the part's own when it has none, one per item. */
  function Draws(p: StoredPart): nat
  {
    IdDraw(p) + (if p.items.Some? then |p.items.value| else 0)
  }

  /** Ids drawn for the parts before part `k` is the sum of their draws. */
  function TotalDraws(ps: seq<StoredPart>): nat
  {
    if ps == [] then 0 else TotalDraws(ps[..|ps| - 1]) + Draws(ps[|ps| - 1])
  }

  /** A stored part made editable, its ids drawn from `uuid(base)` on, in evaluation order. */
  function LoadPart(p: StoredPart, uuid: nat -> string, base: nat): Part
    requires p.items.Some?
  {
    var items := p.items.value;
    Part(OrElse(p.id, uuid(base)), OrElse(p.title, "기본"),
      seq(|items|, j requires 0 <= j < |items| => LoadItem(items[j], uuid(base + IdDraw(p) + j))))
  }

  /**
   * The `parts.map(...)` of the current shape: `None` when a part has no
   * `items` array, where `part.items.map` throws and the catch leaves the
   * parts as they were.
   */
  function LoadParts(ps: seq<StoredPart>, uuid: nat -> string, next: nat): (r: Option<seq<Part>>)
    ensures r.Some? <==> forall k :: 0 <= k < |ps| ==> ps[k].items.Some?
  {
    if forall k :: 0 <= k < |ps| ==> ps[k].items.Some? then
      Some(seq(|ps|, k requires 0 <= k < |ps| => LoadPart(ps[k], uuid, next + TotalDraws(ps[..k]))))
    else None
  }

  /** The legacy flat array becomes one part with a fresh id and the title '기본'. */
  function FlatAsStored(items: seq<Item>): StoredPart
  {
    StoredPart("", "기본", Some(items))
  }

  /** The new parts of `loadCurriculum` for a payload, `None` when the mapping throws. */
  function Load(payload: Payload, uuid: nat -> string, next: nat): Option<seq<Part>>
  {
    match payload
    case PartsPayload(ps) => LoadParts(ps, uuid, next)
    case FlatPayload(items) => Some([LoadPart(FlatAsStored(items), uuid, next)])
    case OtherPayload => Some([])
  }

  /** The stored parts a payload is read as. */
  function LoadedFrom(payload: Payload): seq<StoredPart>
  {
    match payload
    case PartsPayload(ps) => ps
    case FlatPayload(items) => [FlatAsStored(items)]
    case OtherPayload => []
  }

  /** At most this many ids are drawn while loading a payload. */
  function PayloadDraws(payload: Payload): nat
  {
    TotalDraws(LoadedFrom(payload))
  }

  lemma LoadIsLoadParts(payload: Payload, uuid: nat -> string, next: nat)
    ensures Load(payload, uuid, next) == LoadParts(LoadedFrom(payload), uuid, next)
  {
    if payload.FlatPayload? {
      var ps := [FlatAsStored(payload.flat)];
      assert ps[..0] == [];
      var r := LoadParts(ps, uuid, next);
      assert r.Some?;
      assert r.value[0] == LoadPart(ps[0], uuid, next + TotalDraws(ps[..0]));
      assert r.value == [LoadPart(ps[0], uuid, next)];
    } else if payload.OtherPayload? {
      assert LoadParts([], uuid, next).value == [];
    }
  }

  lemma TotalDrawsNext(ps: seq<StoredPart>, k: nat)
    requires k < |ps|
    ensures TotalDraws(ps[..k + 1]) == TotalDraws(ps[..k]) + Draws(ps[k])
  {
    assert ps[..k + 1][..k] == ps[..k];
  }

  lemma {:induction false} TotalDrawsMonotone(ps: seq<StoredPart>, k: nat, k': nat)
    requires k <= k' <= |ps|
    ensures TotalDraws(ps[..k]) <= TotalDraws(ps[..k'])
    decreases k' - k
  {
    if k < k' {
      TotalDrawsNext(ps, k);
      TotalDrawsMonotone(ps, k + 1, k');
    }
  }

  /** The position in the id supply of the id loading gives item `j` of part `k`. */
  function ItemDraw(ps: seq<StoredPart>, next: nat, k: nat, j: nat): nat
    requires k < |ps|
  {
    next + TotalDraws(ps[..k]) + IdDraw(ps[k]) + j
  }

  /**
   * Loading keeps the parts, their order and the order of their items: a
   * part keeps its id (or gets a fresh one) and its title (or '기본'); an
   * item keeps its details, gets its duration or 0, gets the id of its own
   * draw and loses its type.
   */
  lemma LoadKeepsShape(ps: seq<StoredPart>, uuid: nat -> string, next: nat, k: nat, j: nat)
    requires LoadParts(ps, uuid, next).Some? && k < |ps|
    ensures |LoadParts(ps, uuid, next).value| == |ps|
    ensures var p := LoadParts(ps, uuid, next).value[k];
      && p.id == OrElse(ps[k].id, uuid(next + TotalDraws(ps[..k])))
      && p.title == OrElse(ps[k].title, "기본")
      && |p.items| == |ps[k].items.value|
      && (j < |p.items| ==>
        && p.items[j].id == uuid(ItemDraw(ps, next, k, j))
        && p.items[j].details == ps[k].items.value[j].details
        && p.items[j].duration == Some(Minutes(ps[k].items.value[j]))
        && p.items[j].kind == None)
  {
  }

  /** Later items draw later ids: the draw positions increase along the document. */
  lemma ItemDrawIncreasing(ps: seq<StoredPart>, next: nat, k: nat, j: nat, k': nat, j': nat)
    requires k < |ps| && k' < |ps| && ps[k].items.Some? && ps[k'].items.Some?
    requires j < |ps[k].items.value| && j' < |ps[k'].items.value|
    requires k < k' || (k == k' && j < j')
    ensures next <= ItemDraw(ps, next, k, j) < ItemDraw(ps, next, k', j')
  {
    if k < k' {
      TotalDrawsNext(ps, k);
      TotalDrawsMonotone(ps, k + 1, k');
    }
  }

  /**
   * With a supply whose draws all differ, loading gives every item its own
   * id, different from every other loaded item's and from every id drawn
   * before loading began.
   */
  lemma LoadedItemIdsFresh(payload: Payload, uuid: nat -> string, next: nat)
    requires forall a: nat, b: nat :: uuid(a) == uuid(b) ==> a == b
    requires Load(payload, uuid, next).Some?
    ensures var r := Load(payload, uuid, next).value;
      && (forall k, j, n: nat :: 0 <= k < |r| && 0 <= j < |r[k].items| && n < next ==> r[k].items[j].id != uuid(n))
      && (forall k, j, k', j' ::
            (0 <= k < |r| && 0 <= j < |r[k].items| && 0 <= k' < |r| && 0 <= j' < |r[k'].items| && (k, j) != (k', j'))
            ==> r[k].items[j].id != r[k'].items[j'].id)
  {
    LoadIsLoadParts(payload, uuid, next);
    var ps := LoadedFrom(payload);
    var r := Load(payload, uuid, next).value;
    forall k, j, n: nat | 0 <= k < |r| && 0 <= j < |r[k].items| && n < next
      ensures r[k].items[j].id != uuid(n)
    {
      LoadKeepsShape(ps, uuid, next, k, j);
    }
    forall k, j, k', j' | 0 <= k < |r| && 0 <= j < |r[k].items| && 0 <= k' < |r| && 0 <= j' < |r[k'].items|
      && (k, j) != (k', j')
      ensures r[k].items[j].id != r[k'].items[j'].id
    {
      LoadKeepsShape(ps, uuid, next, k, j);
      LoadKeepsShape(ps, uuid, next, k', j');
      if k < k' || (k == k' && j < j') {
        ItemDrawIncreasing(ps, next, k, j, k', j');
      } else {
        ItemDrawIncreasing(ps, next, k', j', k, j);
      }
    }
  }

  /**
   * Saving and reopening a curriculum whose parts have ids and titles keeps
   * the parts, their ids and titles, and each item's details and minutes,
   * but every item comes back without a type, so it is shown and exported
   * as '시연'.
   */
  lemma ReopenDropsTypes(parts: seq<Part>, uuid: nat -> string, next: nat, k: nat, j: nat)
    requires forall m :: 0 <= m < |parts| ==> parts[m].id != "" && parts[m].title != ""
    requires k < |parts| && j < |parts[k].items|
    ensures Load(Store(parts), uuid, next).Some?
    ensures var r := Load(Store(parts), uuid, next).value;
      && |r| == |parts| && r[k].id == parts[k].id && r[k].title == parts[k].title
      && |r[k].items| == |parts[k].items|
      && r[k].items[j].details == parts[k].items[j].details
      && Minutes(r[k].items[j]) == Minutes(parts[k].items[j])
      && r[k].items[j].kind == None && TypeLabel(r[k].items[j].kind) == "시연"
  {
    LoadKeepsShape(Store(parts).parts, uuid, next, k, j);
  }

  /**
   * The builder's and the dashboard's readings of one payload fail
   * together, and when they succeed they have the same parts with the same
   * items: the same details and minutes. The builder replaces missing
   * titles by '기본' and drops every type.
   */
  lemma NormalizationsAgree(payload: Payload, uuid: nat -> string, next: nat, k: nat, j: nat)
    ensures Load(payload, uuid, next).Some? <==> Dashboard.Materialize(Dashboard.Normalize(payload)).Some?
    ensures Load(payload, uuid, next).Some? && k < |Load(payload, uuid, next).value| ==>
      var b := Load(payload, uuid, next).value;
      var d := Dashboard.Materialize(Dashboard.Normalize(payload)).value;
      && |b| == |d| && b[k].title == OrElse(d[k].title, "기본")
      && |b[k].items| == |d[k].items|
      && (j < |b[k].items| ==>
        && b[k].items[j].details == d[k].items[j].details
        && Minutes(b[k].items[j]) == Minutes(d[k].items[j])
        && b[k].items[j].kind == None)
  {
    LoadIsLoadParts(payload, uuid, next);
    var ps := LoadedFrom(payload);
    if Load(payload, uuid, next).Some? && k < |Load(payload, uuid, next).value| {
      LoadKeepsShape(ps, uuid, next, k, j);
    }
  }

  // ---------------------------------------------------------------------
  // Part and item handlers
  // ---------------------------------------------------------------------

  /** No two parts share an id, as when every id comes from a fresh draw. */
  predicate UniqueIds(parts: seq<Part>)
  {
    forall a, b :: 0 <= a < b < |parts| ==> parts[a].id != parts[b].id
  }

  /** Parts with the same ids and the same items, titles aside. */
  predicate SameItems(a: seq<Part>, b: seq<Part>)
  {
    |a| == |b| && forall k :: 0 <= k < |a| ==> a[k].items == b[k].items
  }

  /** Parts that keep their items have the same item list, so the same export rows apart from part titles. */
  lemma {:induction false} SameItemsSameRows(a: seq<Part>, b: seq<Part>)
    requires SameItems(a, b)
    ensures Items(a) == Items(b) && ItemCount(a) == ItemCount(b)
  {
    if a != [] {
      var n := |a| - 1;
      assert SameItems(a[..n], b[..n]);
      SameItemsSameRows(a[..n], b[..n]);
    }
  }

  const NewPartTitle: string := "새 파트"

  /** `handleAddPart`: `[...parts, {id: crypto.randomUUID(), title: '새 파트', items: []}]`. */
  function AddPart(parts: seq<Part>, newId: string): seq<Part>
  {
    parts + [Part(newId, NewPartTitle, [])]
  }

  /**
   * Adding a part appends one empty part '새 파트' and leaves the earlier
   * parts alone; it adds no export row, and a fresh id keeps ids unique.
   */
  lemma AddPartAppends(parts: seq<Part>, newId: string)
    ensures var r := AddPart(parts, newId);
      && |r| == |parts| + 1 && r[..|parts|] == parts
      && r[|parts|] == Part(newId, NewPartTitle, [])
      && Layout(r) == Layout(parts) && ItemCount(r) == ItemCount(parts)
    ensures UniqueIds(parts) && (forall k :: 0 <= k < |parts| ==> parts[k].id != newId) ==> UniqueIds(AddPart(parts, newId))
  {
    var r := AddPart(parts, newId);
    AppendEmptyPart(parts, Part(newId, NewPartTitle, []));
    assert r[..|parts|] == parts;
  }

  /** `handleUpdatePartTitle`: `parts.map(part => part.id === partId ? {...part, title} : part)`. */
  function RenamePart(parts: seq<Part>, partId: string, title: string): (r: seq<Part>)
    ensures |r| == |parts|
  {
    seq(|parts|, k requires 0 <= k < |parts| => if parts[k].id == partId then parts[k].(title := title) else parts[k])
  }

  /**
   * Renaming changes the title of the parts with that id and nothing else:
   * ids, items and so every export row's number, details, minutes and type
   * stay as they were, and so does id uniqueness.
   */
  lemma RenameOnlyTitle(parts: seq<Part>, partId: string, title: string)
    ensures forall k :: 0 <= k < |parts| ==>
      RenamePart(parts, partId, title)[k].id == parts[k].id && RenamePart(parts, partId, title)[k].items == parts[k].items
    ensures forall k :: 0 <= k < |parts| && parts[k].id == partId ==> RenamePart(parts, partId, title)[k].title == title
    ensures forall k :: 0 <= k < |parts| && parts[k].id != partId ==> RenamePart(parts, partId, title)[k] == parts[k]
    ensures Items(RenamePart(parts, partId, title)) == Items(parts)
    ensures UniqueIds(parts) ==> UniqueIds(RenamePart(parts, partId, title))
  {
    var r := RenamePart(parts, partId, title);
    assert SameItems(r, parts);
    SameItemsSameRows(r, parts);
  }

  /** The last rename wins; renaming an id no part has changes nothing. */
  lemma RenameLastWins(parts: seq<Part>, partId: string, t1: string, t2: string)
    ensures RenamePart(RenamePart(parts, partId, t1), partId, t2) == RenamePart(parts, partId, t2)
    ensures (forall k :: 0 <= k < |parts| ==> parts[k].id != partId) ==> RenamePart(parts, partId, t1) == parts
  {
  }

  /** The predicate `handleDeletePart` filters with. */
  function OtherPart(partId: string): Part -> bool
  {
    (p: Part) => p.id != partId
  }

  /** `handleDeletePart` once confirmed: `parts.filter(part => part.id !== partId)`. */
  function DeletePart(parts: seq<Part>, partId: string): seq<Part>
  {
    Filter(parts, OtherPart(partId))
  }

  /**
   * Deleting removes exactly the parts with that id: a part is left exactly
   * when it was there under another id; the rest keep their relative order,
   * and deleting an id no part has changes nothing.
   */
  lemma DeleteRemovesExactly(parts: seq<Part>, partId: string, p: Part, a: seq<Part>, b: seq<Part>)
    ensures p in DeletePart(parts, partId) <==> p in parts && p.id != partId
    ensures DeletePart(a + b, partId) == DeletePart(a, partId) + DeletePart(b, partId)
    ensures (forall k :: 0 <= k < |parts| ==> parts[k].id != partId) ==> DeletePart(parts, partId) == parts
    ensures DeletePart(DeletePart(parts, partId), partId) == DeletePart(parts, partId)
  {
    FilterMembers(parts, OtherPart(partId), p);
    FilterAppend(a, b, OtherPart(partId));
    if forall k :: 0 <= k < |parts| ==> parts[k].id != partId {
      FilterKeepsAll(parts, OtherPart(partId));
    }
    FilterIdempotent(parts, OtherPart(partId));
  }

  /** Deleting keeps part ids unique. */
  lemma {:induction false} DeleteKeepsUniqueIds(parts: seq<Part>, partId: string)
    requires UniqueIds(parts)
    ensures UniqueIds(DeletePart(parts, partId))
  {
    if parts != [] {
      var n := |parts| - 1;
      var init := parts[..n];
      DeleteKeepsUniqueIds(init, partId);
      var d := DeletePart(init, partId);
      forall q | q in d
        ensures q.id != parts[n].id
      {
        FilterMembers(init, OtherPart(partId), q);
        var m :| 0 <= m < n && init[m] == q;
      }
    }
  }

  /** The predicate `handleRemoveItemFromPart` filters a part's items with. */
  function OtherItem(itemId: string): Item -> bool
  {
    (it: Item) => it.id != itemId
  }

  /** `handleRemoveItemFromPart`: the named part's items without those with the id. */
  function RemoveItem(parts: seq<Part>, partId: string, itemId: string): (r: seq<Part>)
    ensures |r| == |parts|
  {
    seq(|parts|, k requires 0 <= k < |parts| =>
      if parts[k].id == partId then parts[k].(items := Filter(parts[k].items, OtherItem(itemId))) else parts[k])
  }

  /**
   * Removing an item touches only the named part: its id and title stay,
   * and an item is left in it exactly when it was there under another id,
   * in the same relative order. Every other part is unchanged.
   */
  lemma RemoveItemOnlyNamedPart(parts: seq<Part>, partId: string, itemId: string, k: nat, x: Item)
    requires k < |parts|
    ensures var r := RemoveItem(parts, partId, itemId);
      && r[k].id == parts[k].id && r[k].title == parts[k].title
      && (parts[k].id != partId ==> r[k] == parts[k])
      && (parts[k].id == partId ==> (x in r[k].items <==> x in parts[k].items && x.id != itemId))
      && (UniqueIds(parts) ==> UniqueIds(r))
  {
    FilterMembers(parts[k].items, OtherItem(itemId), x);
  }

  /** `handleUpdateItemType`: the item with the id, in the part with the id, gets the type. */
  function SetItemType(parts: seq<Part>, partId: string, itemId: string, kind: Kind): (r: seq<Part>)
    requires kind == Practice || kind == Demo
    ensures |r| == |parts|
  {
    seq(|parts|, k requires 0 <= k < |parts| =>
      if parts[k].id == partId then
        parts[k].(items := seq(|parts[k].items|, j requires 0 <= j < |parts[k].items| =>
          if parts[k].items[j].id == itemId then parts[k].items[j].(kind := Some(kind)) else parts[k].items[j]))
      else parts[k])
  }

  /**
   * Setting a type changes only the type of the matching items of the
   * matching parts: every part keeps its id, title and number of items,
   * every item its id, details and duration, and every row its number.
   */
  lemma SetItemTypeOnlyType(parts: seq<Part>, partId: string, itemId: string, kind: Kind, k: nat, j: nat)
    requires kind == Practice || kind == Demo
    requires k < |parts| && j < |parts[k].items|
    ensures var r := SetItemType(parts, partId, itemId, kind);
      && r[k].id == parts[k].id && r[k].title == parts[k].title && |r[k].items| == |parts[k].items|
      && r[k].items[j] == (if parts[k].id == partId && parts[k].items[j].id == itemId
                           then parts[k].items[j].(kind := Some(kind)) else parts[k].items[j])
      && ItemCount(r) == ItemCount(parts)
  {
    ItemCountOfSameSizes(SetItemType(parts, partId, itemId, kind), parts);
  }

  /** Parts whose item lists have the same lengths have the same item count. */
  lemma {:induction false} ItemCountOfSameSizes(a: seq<Part>, b: seq<Part>)
    requires |a| == |b| && forall k :: 0 <= k < |a| ==> |a[k].items| == |b[k].items|
    ensures ItemCount(a) == ItemCount(b)
  {
    if a != [] {
      var n := |a| - 1;
      ItemCountOfSameSizes(a[..n], b[..n]);
    }
  }

  /** `parts.find(p => p.id === partId)`: the first part with the id. */
  function FindPart(parts: seq<Part>, partId: string): (r: Option<Part>)
    ensures r.None? <==> forall k :: 0 <= k < |parts| ==> parts[k].id != partId
    ensures r.Some? ==> exists k :: (0 <= k < |parts| && parts[k] == r.value && parts[k].id == partId &&
      forall m :: 0 <= m < k ==> parts[m].id != partId)
  {
    if parts == [] then None
    else if parts[0].id == partId then Some(parts[0])
    else
      var r := FindPart(parts[1..], partId);
      if r.Some? then
        var k :| 0 <= k < |parts[1..]| && parts[1..][k] == r.value && parts[1..][k].id == partId
          && forall m :: 0 <= m < k ==> parts[1..][m].id != partId;
        assert parts[k + 1] == r.value;
        r
      else r
  }

  /** `existingPart.items.some(i => i.details === item.details)` */
  predicate HasDetails(items: seq<Item>, details: string)
  {
    exists j :: 0 <= j < |items| && items[j].details == details
  }

  /** The duplicate check: the found part already holds an item with these details. */
  predicate IsDuplicate(parts: seq<Part>, partId: string, details: string)
  {
    match FindPart(parts, partId)
    case Some(p) => HasDetails(p.items, details)
    case None => false
  }

  /** The `setParts(parts.map(...))` of `handleAddItemToPart`. */
  function AppendItem(parts: seq<Part>, partId: string, newItem: Item): (r: seq<Part>)
    ensures |r| == |parts|
  {
    seq(|parts|, k requires 0 <= k < |parts| =>
      if parts[k].id == partId then parts[k].(items := parts[k].items + [newItem]) else parts[k])
  }

  /**
   * `handleAddItemToPart`: nothing when the part already holds an item with
   * the same details (the alert), otherwise the item with a fresh id is
   * appended to every part with the id.
   */
  function AddItemToPart(parts: seq<Part>, partId: string, item: Item, newId: string): seq<Part>
  {
    if IsDuplicate(parts, partId, item.details) then parts
    else AppendItem(parts, partId, item.(id := newId))
  }

  /**
   * Adding an item: a duplicate or an unknown part id changes nothing;
   * otherwise the item, under its fresh id, becomes the last item of the
   * part with that id, and every other part is unchanged.
   */
  lemma AddItemCases(parts: seq<Part>, partId: string, item: Item, newId: string)
    ensures IsDuplicate(parts, partId, item.details) ==> AddItemToPart(parts, partId, item, newId) == parts
    ensures (forall k :: 0 <= k < |parts| ==> parts[k].id != partId) ==> AddItemToPart(parts, partId, item, newId) == parts
    ensures !IsDuplicate(parts, partId, item.details) ==>
      var r := AddItemToPart(parts, partId, item, newId);
      && |r| == |parts|
      && (forall k :: 0 <= k < |parts| && parts[k].id == partId ==>
            r[k] == parts[k].(items := parts[k].items + [item.(id := newId)]))
      && (forall k :: 0 <= k < |parts| && parts[k].id != partId ==> r[k] == parts[k])
  {
    if forall k :: 0 <= k < |parts| ==> parts[k].id != partId {
      assert AppendItem(parts, partId, item.(id := newId)) == parts;
    }
  }

  /**
   * With unique part ids, adding an item that is not a duplicate to an
   * existing part adds exactly one item to the document, and the ids stay
   * unique.
   */
  lemma {:induction false} AddItemCount(parts: seq<Part>, partId: string, item: Item, newId: string)
    requires UniqueIds(parts) && !IsDuplicate(parts, partId, item.details)
    requires exists k :: 0 <= k < |parts| && parts[k].id == partId
    ensures ItemCount(AddItemToPart(parts, partId, item, newId)) == ItemCount(parts) + 1
    ensures UniqueIds(AddItemToPart(parts, partId, item, newId))
  {
    AppendItemCount(parts, partId, item.(id := newId));
  }

  lemma {:induction false} AppendItemCount(parts: seq<Part>, partId: string, newItem: Item)
    requires UniqueIds(parts) && exists k :: 0 <= k < |parts| && parts[k].id == partId
    ensures ItemCount(AppendItem(parts, partId, newItem)) == ItemCount(parts) + 1
    ensures UniqueIds(AppendItem(parts, partId, newItem))
  {
    var r := AppendItem(parts, partId, newItem);
    var n := |parts| - 1;
    assert r[..n] == AppendItem(parts[..n], partId, newItem);
    if parts[n].id == partId {
      ItemCountOfSameSizes(r[..n], parts[..n]);
    } else {
      assert exists k :: 0 <= k < |parts[..n]| && parts[..n][k].id == partId;
      AppendItemCount(parts[..n], partId, newItem);
    }
  }

  // ---------------------------------------------------------------------
  // Adding from the content library
  // ---------------------------------------------------------------------

  /** `{...item, type: '시연'}`: a library item always comes in as a demo. */
  function LibraryItem(item: Item): (r: Item)
    ensures r.kind == Some(Demo) && r.details == item.details && r.duration == item.duration
  {
    item.(kind := Some(Demo))
  }

  /**
   * The target `onAddItem` computes from the list it closed over: the part
   * being edited, else the last part's id, else `undefined` (written "").
   */
  function LibraryTarget(parts: seq<Part>, editingPartId: string): string
  {
    if editingPartId != "" then editingPartId
    else if parts == [] then ""
    else parts[|parts| - 1].id
  }

  /**
   * `onAddItem` as written. With no part at all it calls `handleAddPart`,
   * but reads the target from the list as it was before, finds none and so
   * adds nothing: the new part stays empty.
   */
  function LibraryAddAsWritten(parts: seq<Part>, editingPartId: string, item: Item, newPartId: string, newItemId: string): seq<Part>
  {
    var grown := if editingPartId == "" && parts == [] then AddPart(parts, newPartId) else parts;
    var target := LibraryTarget(parts, editingPartId);
    if target != "" then AddItemToPart(parts, target, LibraryItem(item), newItemId) else grown
  }

  /** As written, the first library add into an empty curriculum creates a part but loses the item. */
  lemma LibraryAddAsWrittenLosesItem(item: Item, newPartId: string, newItemId: string)
    ensures LibraryAddAsWritten([], "", item, newPartId, newItemId) == [Part(newPartId, NewPartTitle, [])]
    ensures ItemCount(LibraryAddAsWritten([], "", item, newPartId, newItemId)) == 0
  {
    var r := [Part(newPartId, NewPartTitle, [])];
    assert r[..0] == [];
  }

  /**
   * `onAddItem` as intended: into an empty curriculum the item goes into
   * the part created for it; otherwise as written.
   */
  function LibraryAdd(parts: seq<Part>, editingPartId: string, item: Item, newPartId: string, newItemId: string): seq<Part>
  {
    if editingPartId == "" && parts == [] then
      AddItemToPart(AddPart(parts, newPartId), newPartId, LibraryItem(item), newItemId)
    else
      var target := LibraryTarget(parts, editingPartId);
      if target != "" then AddItemToPart(parts, target, LibraryItem(item), newItemId) else parts
  }

  /** The correction changes only the case of an empty curriculum with no part being edited. */
  lemma LibraryAddFixesOnlyEmpty(parts: seq<Part>, editingPartId: string, item: Item, newPartId: string, newItemId: string)
    requires editingPartId != "" || parts != []
    ensures LibraryAdd(parts, editingPartId, item, newPartId, newItemId)
      == LibraryAddAsWritten(parts, editingPartId, item, newPartId, newItemId)
  {
  }

  /**
   * With no part being edited and unique part ids, a library item lands,
   * as a demo under its fresh id, at the end of the last part, a new one
   * when there is none, unless the last part already holds an item with the
   * same details; the other parts are unchanged.
   */
  lemma LibraryAddLandsItem(parts: seq<Part>, item: Item, newPartId: string, newItemId: string)
    requires UniqueIds(parts)
    requires parts == [] || (parts[|parts| - 1].id != "" && !IsDuplicate(parts, parts[|parts| - 1].id, item.details))
    ensures var r := LibraryAdd(parts, "", item, newPartId, newItemId);
      && |r| == (if parts == [] then 1 else |parts|)
      && r[|r| - 1].items == (if parts == [] then [] else parts[|parts| - 1].items) + [LibraryItem(item).(id := newItemId)]
      && r[..|r| - 1] == (if parts == [] then [] else parts[..|parts| - 1])
  {
    var newItem := LibraryItem(item);
    if parts == [] {
      var grown := AddPart(parts, newPartId);
      assert FindPart(grown, newPartId) == Some(grown[0]);
      AddItemCases(grown, newPartId, newItem, newItemId);
    } else {
      var n := |parts| - 1;
      var r := LibraryAdd(parts, "", item, newPartId, newItemId);
      AddItemCases(parts, parts[n].id, newItem, newItemId);
      assert r[..n] == parts[..n] by {
        forall m | 0 <= m < n
          ensures r[m] == parts[m]
        {
          assert parts[m].id != parts[n].id;
        }
      }
    }
  }

  // ---------------------------------------------------------------------
  // Saving (`handleSave`)
  // ---------------------------------------------------------------------

  /** The form fields of the page: `formData`. */
  datatype FormData = FormData(title: string, objectives: string, duration: int, categoryId: string)

  /** The body posted on save: `{title, duration, categoryId, learningObjectives, parts}`. */
  datatype SaveRequest = SaveRequest(title: string, duration: int, categoryId: string, objectives: string, parts: seq<Part>)

  /**
   * The save check: refused ('필수 항목을 입력하세요') when the title is
   * blank once trimmed or no category is chosen; otherwise the fields go out
   * as they are, the title untrimmed.
   */
  function SaveRequestOf(form: FormData, parts: seq<Part>): (r: Option<SaveRequest>)
    ensures r.None? <==> IsBlank(form.title) || form.categoryId == ""
    ensures r.Some? ==> (r.value.title == form.title && r.value.categoryId == form.categoryId &&
      r.value.duration == form.duration && r.value.objectives == form.objectives && r.value.parts == parts)
  {
    TrimEmptyIffBlank(form.title);
    if Trim(form.title) == "" || form.categoryId == "" then None
    else Some(SaveRequest(form.title, form.duration, form.categoryId, form.objectives, parts))
  }

  /** What is saved is what the dashboard exports: the same parts, read back as they are. */
  lemma SavedIsExported(form: FormData, parts: seq<Part>)
    requires SaveRequestOf(form, parts).Some?
    ensures Dashboard.Materialize(Dashboard.Normalize(Store(SaveRequestOf(form, parts).value.parts))) == Some(parts)
  {
    Dashboard.StoredPartsUsedAsIs(parts);
  }

  // ---------------------------------------------------------------------
  // The page
  // ---------------------------------------------------------------------

  /**
   * The page state: the form fields, the parts, the part being edited
   * (`currentEditingPartId`, "" for `null`) and the number of ids drawn.
   */
  class BuilderPage {
    var form: FormData
    var parts: seq<Part>
    var editingPartId: string
    var drawn: nat
    const uuid: nat -> string

    constructor (uuid: nat -> string)
      ensures form == FormData("", "", 120, "") && parts == [] && editingPartId == ""
      ensures drawn == 0 && this.uuid == uuid
    {
      form := FormData("", "", 120, "");
      parts := [];
      editingPartId := "";
      drawn := 0;
      this.uuid := uuid;
    }

    /** `crypto.randomUUID()`. */
    method Draw() returns (id: string)
      modifies this
      ensures id == uuid(old(drawn)) && drawn == old(drawn) + 1
      ensures form == old(form) && parts == old(parts) && editingPartId == old(editingPartId)
    {
      id := uuid(drawn);
      drawn := drawn + 1;
    }

    /**
     * `loadCurriculum` once both responses are in: nothing without a
     * curriculum; otherwise the form is filled and the parts replaced,
     * unless reading them throws, which the catch swallows.
     */
    method LoadCurriculum(curriculum: Option<CurriculumRecord>, itemsData: ItemsData)
      modifies this
      ensures curriculum.None? ==> form == old(form) && parts == old(parts) && drawn == old(drawn)
      ensures curriculum.Some? ==>
        && form == FormData(curriculum.value.title, OrElse(itemsData.objectives, ""), curriculum.value.duration, curriculum.value.categoryId)
        && parts == Load(itemsData.items, uuid, old(drawn)).GetOr(old(parts))
        && drawn == old(drawn) + PayloadDraws(itemsData.items)
      ensures editingPartId == old(editingPartId)
    {
      if curriculum.Some? {
        var c := curriculum.value;
        form := FormData(c.title, OrElse(itemsData.objectives, ""), c.duration, c.categoryId);
        var loaded := Load(itemsData.items, uuid, drawn);
        if loaded.Some? {
          parts := loaded.value;
        }
        drawn := drawn + PayloadDraws(itemsData.items);
      }
    }

    method HandleAddPart()
      modifies this
      ensures parts == AddPart(old(parts), uuid(old(drawn))) && drawn == old(drawn) + 1
      ensures form == old(form) && editingPartId == old(editingPartId)
    {
      var id := Draw();
      parts := AddPart(parts, id);
    }

    method HandleUpdatePartTitle(partId: string, title: string)
      modifies this
      ensures parts == RenamePart(old(parts), partId, title)
      ensures form == old(form) && editingPartId == old(editingPartId) && drawn == old(drawn)
    {
      parts := RenamePart(parts, partId, title);
    }

    /** `handleDeletePart`; `confirmed` is the answer to the confirmation dialog. */
    method HandleDeletePart(partId: string, confirmed: bool)
      modifies this
      ensures parts == if confirmed then DeletePart(old(parts), partId) else old(parts)
      ensures form == old(form) && editingPartId == old(editingPartId) && drawn == old(drawn)
    {
      if confirmed {
        parts := DeletePart(parts, partId);
      }
    }

    method HandleAddItemToPart(partId: string, item: Item)
      modifies this
      ensures parts == AddItemToPart(old(parts), partId, item, uuid(old(drawn)))
      ensures drawn == old(drawn) + 1
      ensures form == old(form) && editingPartId == old(editingPartId)
    {
      var id := Draw();
      parts := AddItemToPart(parts, partId, item, id);
    }

    method HandleRemoveItemFromPart(partId: string, itemId: string)
      modifies this
      ensures parts == RemoveItem(old(parts), partId, itemId)
      ensures form == old(form) && editingPartId == old(editingPartId) && drawn == old(drawn)
    {
      parts := RemoveItem(parts, partId, itemId);
    }

    /** `handleUpdateItemType`: defined on the page but never handed to the editor, so no control calls it. */
    method HandleUpdateItemType(partId: string, itemId: string, kind: Kind)
      requires kind == Practice || kind == Demo
      modifies this
      ensures parts == SetItemType(old(parts), partId, itemId, kind)
      ensures form == old(form) && editingPartId == old(editingPartId) && drawn == old(drawn)
    {
      parts := SetItemType(parts, partId, itemId, kind);
    }

    /** `onEditingPartChange`: the editor reports which part is being edited ("" for none). */
    method SetEditingPart(partId: string)
      modifies this
      ensures editingPartId == partId
      ensures form == old(form) && parts == old(parts) && drawn == old(drawn)
    {
      editingPartId := partId;
    }

    /** The content library's `onAddItem`, with the empty-curriculum case corrected. */
    method AddLibraryItem(item: Item)
      modifies this
      ensures parts == LibraryAdd(old(parts), old(editingPartId), item, uuid(old(drawn)), uuid(old(drawn) + 1))
      ensures drawn == old(drawn) + 2
      ensures form == old(form) && editingPartId == old(editingPartId)
    {
      var partId := Draw();
      var itemId := Draw();
      parts := LibraryAdd(parts, editingPartId, item, partId, itemId);
    }

    /** `handleSave` up to the request: refused or the body to post. */
    method HandleSave() returns (request: Option<SaveRequest>)
      ensures request.None? <==> IsBlank(form.title) || form.categoryId == ""
      ensures request.Some? ==> request.value == SaveRequest(form.title, form.duration, form.categoryId, form.objectives, parts)
    {
      if Trim(form.title) == "" || form.categoryId == "" {
        TrimEmptyIffBlank(form.title);
        request := None;
      } else {
        TrimEmptyIffBlank(form.title);
        request := Some(SaveRequest(form.title, form.duration, form.categoryId, form.objectives, parts));
      }
    }
  }
}
