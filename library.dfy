/**
 * The content library panel (`ContentLibrary`): the items it lists are the
 * library items whose details are not used in the curriculum yet, narrowed,
 * when the search box holds more than white space, to those whose
 * lower-cased details contain the lower-cased query. The compact mode lists
 * the first ten.
 *
 * `String.prototype.toLowerCase` is a parameter `lower`: Unicode case
 * mapping is not modelled.
 */
module Library {
  import opened Wrappers
  import opened Text
  import opened Curriculum
  import opened Lists
  import Builder

  /** `usedItemDetails`: `parts.flatMap(part => part.items.map(item => item.details))`. */
  function UsedDetails(parts: seq<Part>): (used: seq<string>)
    ensures |used| == ItemCount(parts)
    ensures forall t :: 0 <= t < |used| ==> used[t] == Items(parts)[t].details
  {
    seq(|Items(parts)|, t requires 0 <= t < |Items(parts)| => Items(parts)[t].details)
  }

  /** `!usedItemDetails.includes(item.details)` */
  function Unused(used: seq<string>): Item -> bool
  {
    (it: Item) => it.details !in used
  }

  /** `item.details.toLowerCase().includes(query) && !usedItemDetails.includes(item.details)` */
  function MatchesUnused(used: seq<string>, query: string, lower: string -> string): Item -> bool
  {
    (it: Item) => Contains(lower(it.details), lower(query)) && it.details !in used
  }

  /** `filteredItems` as the filtering effect sets it. */
  function FilteredItems(items: seq<Item>, used: seq<string>, query: string, lower: string -> string): seq<Item>
  {
    if Trim(query) != "" then Filter(items, MatchesUnused(used, query, lower))
    else Filter(items, Unused(used))
  }

  const CompactLimit: nat := 10

  /** `filteredItems.slice(0, 10)` */
  function CompactView(filtered: seq<Item>): (shown: seq<Item>)
    ensures |shown| <= CompactLimit && |shown| <= |filtered| && shown == filtered[..|shown|]
    ensures |filtered| <= CompactLimit ==> shown == filtered
  {
    if |filtered| <= CompactLimit then filtered else filtered[..CompactLimit]
  }

  /**
   * An item is listed exactly when it is in the library, its details are
   * not used, and, for a query that is not blank, its lower-cased details
   * contain the lower-cased query (untrimmed).
   */
  lemma FilteredMembers(items: seq<Item>, used: seq<string>, query: string, lower: string -> string, x: Item)
    ensures x in FilteredItems(items, used, query, lower) <==>
      && x in items && x.details !in used
      && (!IsBlank(query) ==> Contains(lower(x.details), lower(query)))
  {
    TrimEmptyIffBlank(query);
    FilterMembers(items, MatchesUnused(used, query, lower), x);
    FilterMembers(items, Unused(used), x);
  }

  /** The listed items keep the library's order: filtering works piece by piece. */
  lemma FilteredKeepsOrder(a: seq<Item>, b: seq<Item>, used: seq<string>, query: string, lower: string -> string)
    ensures FilteredItems(a + b, used, query, lower) == FilteredItems(a, used, query, lower) + FilteredItems(b, used, query, lower)
  {
    FilterAppend(a, b, MatchesUnused(used, query, lower));
    FilterAppend(a, b, Unused(used));
  }

  /** Every blank query lists the same items as an empty one; with nothing used that is the whole library. */
  lemma BlankQueryListsUnused(items: seq<Item>, used: seq<string>, query: string, lower: string -> string)
    requires IsBlank(query)
    ensures FilteredItems(items, used, query, lower) == FilteredItems(items, used, "", lower)
    ensures used == [] ==> FilteredItems(items, used, query, lower) == items
  {
    TrimEmptyIffBlank(query);
    if used == [] {
      FilterKeepsAll(items, Unused(used));
    }
  }

  /** Every item of every part contributes its details to the used list. */
  lemma {:induction false} ItemInUsed(parts: seq<Part>, k: nat, j: nat)
    requires k < |parts| && j < |parts[k].items|
    ensures parts[k].items[j].details in UsedDetails(parts)
  {
    var n := |parts| - 1;
    if k == n {
      var t := ItemCount(parts[..n]) + j;
      assert Items(parts)[t] == parts[k].items[j];
      assert UsedDetails(parts)[t] == parts[k].items[j].details;
    } else {
      ItemInUsed(parts[..n], k, j);
      var used := UsedDetails(parts[..n]);
      var t :| 0 <= t < |used| && used[t] == parts[k].items[j].details;
      assert Items(parts)[t] == Items(parts[..n])[t];
      assert UsedDetails(parts)[t] == parts[k].items[j].details;
    }
  }

  /**
   * A listed item is never refused as a duplicate: its details occur in no
   * part, so adding it to any part goes through.
   */
  lemma ListedItemsAreNoDuplicates(items: seq<Item>, parts: seq<Part>, query: string, lower: string -> string, x: Item, partId: string)
    requires x in FilteredItems(items, UsedDetails(parts), query, lower)
    ensures !Builder.IsDuplicate(parts, partId, x.details)
  {
    FilteredMembers(items, UsedDetails(parts), query, lower, x);
    var found := Builder.FindPart(parts, partId);
    if found.Some? {
      var k :| 0 <= k < |parts| && parts[k] == found.value && parts[k].id == partId;
      forall j | 0 <= j < |parts[k].items|
        ensures parts[k].items[j].details != x.details
      {
        ItemInUsed(parts, k, j);
      }
    }
  }
}
