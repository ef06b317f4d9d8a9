/**
 * The dashboard's export handlers (`handleExport`, `handleExportPdf`,
 * `handleExportHtml`). Each fetches the curriculum and its items, turns the
 * items payload into a list of parts and hands
 * `{title, learningObjectives || '', duration, parts}` to its exporter. The
 * spreadsheet and HTML handlers test `!curriculum` first (`ExportRequest`);
 * the PDF handler reads the record's title before that test
 * (`PdfExportRequest`). The curriculum endpoint answers an unknown id with a
 * truthy `{error}` body, so `!curriculum` holds only for a null response
 * body, which is what `None` stands for here.
 */
module Dashboard {
  import opened Wrappers
  import opened Curriculum
  import opened Table
  import opened Storage

  /**
   * The payload's parts: the stored `parts` array as it is, or a legacy flat
   * array wrapped into one part `{id: 'default', title: '기본'}`, or no parts.
   */
  function Normalize(payload: Payload): seq<StoredPart>
  {
    match payload
    case PartsPayload(ps) => ps
    case FlatPayload(items) => [StoredPart("default", "기본", Some(items))]
    case OtherPayload => []
  }

  /**
   * The parts as the exporters see them. Every exporter reads
   * `part.items.length`, so a stored part without an `items` array makes
   * the export throw: `None`.
   */
  function Materialize(ps: seq<StoredPart>): (r: Option<seq<Part>>)
    ensures r.Some? <==> forall k :: 0 <= k < |ps| ==> ps[k].items.Some?
    ensures r.Some? ==> (|r.value| == |ps| &&
      forall k :: 0 <= k < |ps| ==> r.value[k] == Part(ps[k].id, ps[k].title, ps[k].items.value))
  {
    if ps == [] then Some([])
    else
      var last := ps[|ps| - 1];
      match Materialize(ps[..|ps| - 1])
      case None => None
      case Some(init) =>
        if last.items.None? then None
        else Some(init + [Part(last.id, last.title, last.items.value)])
  }

  /** What a click on an export button leads to. */
  datatype Outcome =
    | NotFound               // `!curriculum` (a null body): alert '커리큘럼을 찾을 수 없습니다.'
    | Failed                 // the exporter threw: the handler's catch alerts
    | Exported(data: ExportData)

  /** The exporter input the three handlers build from the two responses. */
  function ExportRequest(curriculum: Option<CurriculumRecord>, itemsData: ItemsData): (o: Outcome)
    ensures o == NotFound <==> curriculum == None
    ensures o.Exported? ==> (o.data.title == curriculum.value.title &&
      o.data.duration == curriculum.value.duration &&
      o.data.objectives == itemsData.objectives &&
      Materialize(Normalize(itemsData.items)) == Some(o.data.parts))
  {
    if curriculum == None then NotFound
    else
      match Materialize(Normalize(itemsData.items))
      case None => Failed
      case Some(parts) => Exported(ExportData(curriculum.value.title, OrElse(itemsData.objectives, ""), curriculum.value.duration, parts))
  }

  /**
   * `handleExportPdf`: it logs `curriculum.title` before its `!curriculum`
   * test, so a null response body throws into the catch instead of reaching
   * the not-found alert.
   */
  function PdfExportRequest(curriculum: Option<CurriculumRecord>, itemsData: ItemsData): (o: Outcome)
    ensures o != NotFound
    ensures o == Failed <==> curriculum == None || Materialize(Normalize(itemsData.items)).None?
  {
    if curriculum == None then Failed else ExportRequest(curriculum, itemsData)
  }

  /** The PDF export differs from the other two exactly on a null response body: failure instead of not found. */
  lemma PdfDiffersOnlyOnNullBody(curriculum: Option<CurriculumRecord>, itemsData: ItemsData)
    ensures PdfExportRequest(curriculum, itemsData) != ExportRequest(curriculum, itemsData) <==> curriculum == None
    ensures curriculum == None ==> ExportRequest(curriculum, itemsData) == NotFound && PdfExportRequest(curriculum, itemsData) == Failed
  {
  }

  /** A stored parts array is used as it is: no id, title or duration defaulting. */
  lemma StoredPartsUsedAsIs(parts: seq<Part>)
    ensures Materialize(Normalize(Store(parts))) == Some(parts)
  {
    var r := Materialize(Normalize(Store(parts)));
    assert r.value == parts;
  }

  /**
   * A legacy flat array becomes exactly one part '기본' with id 'default'
   * holding the same items in the same order.
   */
  lemma FlatWrapped(items: seq<Item>)
    ensures Materialize(Normalize(FlatPayload(items))) == Some([Part("default", "기본", items)])
    ensures Items([Part("default", "기본", items)]) == items
  {
    var r := Materialize([StoredPart("default", "기본", Some(items))]);
    assert r.value == [Part("default", "기본", items)];
    var ps := [Part("default", "기본", items)];
    assert ps[..0] == [];
  }

  /** Normalizing what normalization produced, stored back as `{parts}`, changes nothing. */
  lemma NormalizeIdempotent(payload: Payload)
    ensures Normalize(PartsPayload(Normalize(payload))) == Normalize(payload)
  {
  }

  /**
   * The items endpoint's error answer `items: []` gives one empty '기본'
   * part and so an export with no rows; its `{}` answer gives no parts.
   */
  lemma FallbacksExportNoRows()
    ensures Materialize(Normalize(ErrorFallback.items)) == Some([Part("default", "기본", [])])
    ensures Layout([Part("default", "기본", [])]) == []
    ensures Materialize(Normalize(MissingItems)) == Some([])
  {
    FlatWrapped([]);
    var ps := [Part("default", "기본", [])];
    assert ps[..0] == [];
  }

  /** The export fails exactly when a stored part lacks its items array. */
  lemma ExportFailsOnMissingItems(curriculum: CurriculumRecord, itemsData: ItemsData)
    ensures ExportRequest(Some(curriculum), itemsData) == Failed <==>
      exists k :: 0 <= k < |Normalize(itemsData.items)| && Normalize(itemsData.items)[k].items == None
  {
  }
}
