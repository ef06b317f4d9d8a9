/**
 * What the pages read back from the API: the `curriculums` record and the
 * `curriculum_items` payload. The payload's `items` field has two shapes:
 * the current `{parts: [...]}` and a legacy flat array of items; anything
 * else (the `{}` the items endpoint returns for a missing row, `null`) is a
 * third case.
 */
module Storage {
  import opened Wrappers
  import opened Curriculum

  /** A stored part as parsed from JSON: its `items` array may be missing. */
  datatype StoredPart = StoredPart(id: string, title: string, items: Option<seq<Item>>)

  /** The `items` field of the items payload. */
  datatype Payload =
    | PartsPayload(parts: seq<StoredPart>)
    | FlatPayload(flat: seq<Item>)
    | OtherPayload

  /** The response of the items endpoint: `{learningObjectives, items}`. */
  datatype ItemsData = ItemsData(objectives: string, items: Payload)

  /** The response of the curriculum endpoint. */
  datatype CurriculumRecord = CurriculumRecord(title: string, duration: int, categoryId: string)

  /** The items endpoint when the row cannot be read: `{learningObjectives: '', items: []}`. */
  const ErrorFallback: ItemsData := ItemsData("", FlatPayload([]))

  /** The items endpoint when the row has no items: `items: data?.items || {}`. */
  const MissingItems: Payload := OtherPayload

  /** What saving a curriculum writes into `items`: `{parts}`, each part with its items array. */
  function Store(parts: seq<Part>): Payload
  {
    PartsPayload(seq(|parts|, k requires 0 <= k < |parts| => StoredPart(parts[k].id, parts[k].title, Some(parts[k].items))))
  }
}
