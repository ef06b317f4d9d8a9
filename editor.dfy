/**
 * The curriculum editor panel (`CurriculumEditor`): the time accounting it
 * shows (minutes used over all parts, minutes per part, minutes left), the
 * part-title editing state, the item built by the manual form of a part,
 * and the type badge of an item.
 */
module Editor {
  import opened Wrappers
  import opened Text
  import opened Curriculum
  import opened ManualForm
  import Builder

  // ---------------------------------------------------------------------
  // Time accounting
  // ---------------------------------------------------------------------

  /** `items.reduce((sum, item) => sum + (item.duration || 0), 0)` */
  function SumMinutes(items: seq<Item>): int
  {
    if items == [] then 0 else SumMinutes(items[..|items| - 1]) + Minutes(items[|items| - 1])
  }

  /** The minutes shown next to a part's title. */
  function PartMinutes(p: Part): int
  {
    SumMinutes(p.items)
  }

  /** `usedTime`: the outer `reduce` over the parts of the per-part sums. */
  function UsedTime(parts: seq<Part>): int
  {
    if parts == [] then 0 else UsedTime(parts[..|parts| - 1]) + PartMinutes(parts[|parts| - 1])
  }

  /** `remainingTime = Math.max(duration - usedTime, 0)`. */
  function RemainingTime(duration: int, used: int): (r: int)
    ensures r >= 0 && r >= duration - used
    ensures r == 0 || r == duration - used
    ensures r == 0 <==> used >= duration
  {
    if duration - used > 0 then duration - used else 0
  }

  lemma {:induction false} SumMinutesAppend(a: seq<Item>, b: seq<Item>)
    ensures SumMinutes(a + b) == SumMinutes(a) + SumMinutes(b)
    decreases |b|
  {
    if b == [] {
      assert a + b == a;
    } else {
      var b' := b[..|b| - 1];
      assert (a + b)[..|a + b| - 1] == a + b';
      SumMinutesAppend(a, b');
    }
  }

  /**
   * The minutes used are the minutes of all items, part after part, each
   * `duration || 0`: the per-part totals add up to the total.
   */
  lemma {:induction false} UsedTimeIsItemMinutes(parts: seq<Part>)
    ensures UsedTime(parts) == SumMinutes(Items(parts))
  {
    if parts != [] {
      var n := |parts| - 1;
      UsedTimeIsItemMinutes(parts[..n]);
      SumMinutesAppend(Items(parts[..n]), parts[n].items);
    }
  }

  /** Parts with the same items use the same time, so renaming a part changes no total. */
  lemma UsedTimeOfSameItems(a: seq<Part>, b: seq<Part>)
    requires Builder.SameItems(a, b)
    ensures UsedTime(a) == UsedTime(b)
  {
    Builder.SameItemsSameRows(a, b);
    UsedTimeIsItemMinutes(a);
    UsedTimeIsItemMinutes(b);
  }

  /**
   * With unique part ids, appending an item to one existing part adds its
   * minutes to the time used; so an item of non-negative duration never
   * raises the time left.
   */
  lemma {:induction false} AppendItemUsedTime(parts: seq<Part>, partId: string, newItem: Item)
    requires Builder.UniqueIds(parts) && exists k :: 0 <= k < |parts| && parts[k].id == partId
    ensures UsedTime(Builder.AppendItem(parts, partId, newItem)) == UsedTime(parts) + Minutes(newItem)
  {
    var r := Builder.AppendItem(parts, partId, newItem);
    var n := |parts| - 1;
    assert r[..n] == Builder.AppendItem(parts[..n], partId, newItem);
    if parts[n].id == partId {
      assert Builder.SameItems(r[..n], parts[..n]);
      UsedTimeOfSameItems(r[..n], parts[..n]);
      SumMinutesAppend(parts[n].items, [newItem]);
      assert [newItem][..0] == [];
    } else {
      assert exists k :: 0 <= k < |parts[..n]| && parts[..n][k].id == partId;
      AppendItemUsedTime(parts[..n], partId, newItem);
    }
  }

  lemma AddingTimeNeverRaisesRemaining(duration: int, used: int, added: int)
    requires added >= 0
    ensures RemainingTime(duration, used + added) <= RemainingTime(duration, used)
    ensures RemainingTime(duration, used + added) >= RemainingTime(duration, used) - added
  {
  }

  // ---------------------------------------------------------------------
  // Part-title editing
  // ---------------------------------------------------------------------

  /** What a title commit does to the parts: rename with the trimmed title, unless it is blank. */
  function CommitTitle(parts: seq<Part>, partId: string, editedTitle: string): seq<Part>
  {
    if Trim(editedTitle) != "" then Builder.RenamePart(parts, partId, Trim(editedTitle)) else parts
  }

  /**
   * A commit never leaves a blank or untrimmed title: the parts with the id
   * get the trimmed text when it is not blank, and nothing changes when it
   * is; the items, and so the time used, never change.
   */
  lemma CommitTitleTrimmed(parts: seq<Part>, partId: string, editedTitle: string, k: nat)
    requires k < |parts|
    ensures var r := CommitTitle(parts, partId, editedTitle);
      && |r| == |parts| && r[k].id == parts[k].id && r[k].items == parts[k].items
      && (IsBlank(editedTitle) || parts[k].id != partId ==> r[k] == parts[k])
      && (!IsBlank(editedTitle) && parts[k].id == partId ==>
            r[k].title == Trim(editedTitle) && r[k].title != "" && Trim(r[k].title) == r[k].title)
      && UsedTime(r) == UsedTime(parts)
  {
    TrimEmptyIffBlank(editedTitle);
    TrimIdempotent(editedTitle);
    var r := CommitTitle(parts, partId, editedTitle);
    Builder.RenameOnlyTitle(parts, partId, Trim(editedTitle));
    assert Builder.SameItems(r, parts);
    UsedTimeOfSameItems(r, parts);
  }

  /**
   * The editing state of the panel: the part whose title is being edited
   * ("" for `null`) and the text in its title field.
   */
  class PartTitleEditor {
    var editingPartId: string
    var editingPartTitle: string

    constructor ()
      ensures editingPartId == "" && editingPartTitle == ""
    {
      editingPartId := "";
      editingPartTitle := "";
    }

    /** `handleStartEditPart`: start editing, tell the page which part. */
    method StartEdit(page: Builder.BuilderPage, partId: string, currentTitle: string)
      modifies this, page
      ensures editingPartId == partId && editingPartTitle == currentTitle
      ensures page.editingPartId == partId && page.parts == old(page.parts)
      ensures page.form == old(page.form) && page.drawn == old(page.drawn)
    {
      editingPartId := partId;
      editingPartTitle := currentTitle;
      page.SetEditingPart(partId);
    }

    /** The title field's `onChange`. */
    method EditTitle(text: string)
      modifies this
      ensures editingPartTitle == text && editingPartId == old(editingPartId)
    {
      editingPartTitle := text;
    }

    /**
     * `handleSavePartTitle`: rename the part with the trimmed text when it
     * is not blank, then leave editing, here and in the page.
     */
    method SaveTitle(page: Builder.BuilderPage, partId: string)
      modifies this, page
      ensures page.parts == CommitTitle(old(page.parts), partId, old(editingPartTitle))
      ensures editingPartId == "" && editingPartTitle == "" && page.editingPartId == ""
      ensures page.form == old(page.form) && page.drawn == old(page.drawn)
    {
      ghost var committed := CommitTitle(page.parts, partId, editingPartTitle);
      var trimmed := Trim(editingPartTitle);
      if trimmed != "" {
        page.HandleUpdatePartTitle(partId, trimmed);
      }
      assert page.parts == committed;
      editingPartId := "";
      editingPartTitle := "";
      page.SetEditingPart("");
    }

    /** `handleCancelEditPart`: leave editing without renaming anything. */
    method CancelEdit(page: Builder.BuilderPage)
      modifies this, page
      ensures editingPartId == "" && editingPartTitle == "" && page.editingPartId == ""
      ensures page.parts == old(page.parts) && page.form == old(page.form) && page.drawn == old(page.drawn)
    {
      editingPartId := "";
      editingPartTitle := "";
      page.SetEditingPart("");
    }
  }

  // ---------------------------------------------------------------------
  // Adding a manual item to a part
  // ---------------------------------------------------------------------

  /** `{id: crypto.randomUUID(), type: '시연', ...item}` for what the form emitted. */
  function ManualItem(s: Submission, newId: string): (r: Item)
    ensures r.kind == Some(Demo) && r.details == s.details && Minutes(r) == s.duration
  {
    Item(newId, s.details, Some(s.duration), Some(Demo))
  }

  /**
   * A manual item that is not a duplicate becomes, as a demo with the
   * trimmed details and the typed duration, the last item of the part it
   * was added to; the page gives it its own fresh id.
   */
  lemma ManualAddLands(parts: seq<Part>, k: nat, details: string, duration: int, formId: string, newId: string)
    requires k < |parts| && Validate(details, duration).Some?
    requires !Builder.IsDuplicate(parts, parts[k].id, Trim(details))
    ensures var item := ManualItem(Validate(details, duration).value, formId);
      var r := Builder.AddItemToPart(parts, parts[k].id, item, newId);
      && |r[k].items| == |parts[k].items| + 1
      && r[k].items[|parts[k].items|] == Item(newId, Trim(details), Some(duration), Some(Demo))
  {
    var item := ManualItem(Validate(details, duration).value, formId);
    Builder.AddItemCases(parts, parts[k].id, item, newId);
  }

  // ---------------------------------------------------------------------
  // Badges
  // ---------------------------------------------------------------------

  /** Background and text colour of the type badge. */
  datatype BadgeColors = BadgeColors(background: string, text: string)

  /** The badge colours: green for '실습', blue for '이론', grey for anything else. */
  function Badge(kind: Option<Kind>): BadgeColors
  {
    if kind == Some(Practice) then BadgeColors("#E8F5E9", "#2E7D32")
    else if kind == Some(Theory) then BadgeColors("#E3F2FD", "#1565C0")
    else BadgeColors("#F5F5F5", "#616161")
  }

  /**
   * The badge follows the same three-way split as every export: its
   * colours are decided by the style alone, different styles look
   * different, and its label is the type or '시연'.
   */
  lemma BadgeFollowsStyle(a: Option<Kind>, b: Option<Kind>)
    ensures Badge(a) == Badge(b) <==> StyleOf(a) == StyleOf(b)
    ensures a == None ==> Badge(a) == Badge(Some(Demo)) && TypeLabel(a) == "시연"
  {
    assert "#E8F5E9"[2] != "#E3F2FD"[2] && "#E8F5E9"[2] != "#F5F5F5"[2] && "#E3F2FD"[2] != "#F5F5F5"[2];
  }
}
