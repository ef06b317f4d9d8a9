# Curriculum builder and exporters — a Dafny model

The application is a curriculum builder with a Korean UI.

**The curriculum document.** A curriculum has a title, learning objectives and a planned duration in minutes. Its body is an ordered list of *parts* (파트). Each part has an id, a title and an ordered list of content *items*. An item has an id, details, an optional duration in minutes and an optional type: 실습 (practice), 이론 (theory) or 시연 (demo). A missing type is shown and coloured as a demo. A missing duration counts as 0.

**Row layout (`Table`).** Three exporters turn a curriculum into a table:
- an Excel worksheet;
- a PDF table;
- an HTML page.

Each exporter has its own counter loop, but all three lay the table out the same way, and the model states that layout once as `Table.Layout`:
- one row per item, numbered 1..K across all parts in document order;
- a part's title appears only on its first row, spanning the part's item count (a merged cell in Excel, a `rowspan` in HTML);
- a part without items contributes no row.

**Exporters.**
- Each exporter is modelled as the imperative loop it is in the source. The Excel worksheet is a class whose cell writes, fills and merges are methods; the PDF body and the HTML row string are built by loops.
- Each loop is proved to produce a declarative specification of the whole output.
- Lemmas about those specifications state the observable promises:
  - row numbering, and the title shown once per part;
  - which parts get merged;
  - type colouring;
  - sanitized download file names;
  - the three exporters agreeing, item by item.

**Dashboard export.** The dashboard's export handlers normalize the stored `items` payload. The current `{parts}` shape is used as is. A legacy flat array becomes one part `기본` with id `default`. Anything else gives no parts. The spreadsheet and HTML handlers report a null curriculum response body as not found; the PDF handler reads the record's title first, so a null body makes it fail instead.

**Builder page.** The builder page is a class holding:
- the form;
- the parts;
- the id of the part being edited;
- a counter of random ids drawn.

Its loader and handlers are methods proved against pure functions on the part list:
- add, rename and delete a part;
- add and remove an item, and set an item's type;
- add an item from the content library;
- save.

The loader draws fresh random ids for every item, and for parts without an id. Like the source, it keeps only details and duration, so an item's type does not survive saving and reopening.

**Other components.**
- **Curriculum editor:** the time accounting, the part-title editing state and the manual-add path.
- **Content library:** the filter.
- **Manual item form:** the form's own state.
- **Middleware:** the route guard.

## Model

| member | source | states |
|---|---|---|
| Curriculum.Minutes | lib/exportExcel.ts:89 | an item's minutes are its duration when present and 0 when absent |
| Curriculum.TypeLabel | lib/exportPdf.ts:40 | an item without a type is labelled as a demo (시연) |
| Curriculum.OrElse | lib/exportExcel.ts:31 | JavaScript's `or` default on strings: the string itself unless it is empty, else the fallback |
| Curriculum.StyleOf | lib/exportExcel.ts:107-119 | the practice style exactly for 실습, the theory style exactly for 이론, neutral for everything else |
| Curriculum.UnsetStyledAsDemo | lib/exportHtml.ts:215-216 | an item without a type is styled and labelled exactly like a demo item |
| Curriculum.StyleFromLabel | lib/exportPdf.ts:74-78 | colouring by the type label shown in a row agrees with colouring by the item's type |
| Curriculum.Items | app/builder/page.tsx:285 | flattening the parts gives one entry per item, the item count |
| Curriculum.StartMonotone | lib/exportPdf.ts:31-43 | the running item counter at a later part is at least the earlier part's start plus its item count |
| Curriculum.ItemCountSkipsEmpty | lib/exportPdf.ts:33-44 | inserting a part without items anywhere does not change the item count |
| Table.Layout | lib/exportPdf.ts:30-44 | one row per item, and row k carries number k+1 and an existing part index |
| Table.LayoutAt | lib/exportHtml.ts:211-228 | item j of part i becomes row Start(i)+j: its number, its part's title and span, whether it is the first, its details, minutes and type |
| Table.LayoutOwner | lib/exportHtml.ts:211-228 | every row belongs to exactly one part and lies within that part's range of rows |
| Table.TitleOncePerPart | lib/exportPdf.ts:37 | a row is the title row of part i if and only if part i has items and the row is its first |
| Table.EmptyPartHasNoRows | lib/exportExcel.ts:68-75 | a part without items owns no row |
| Table.FirstRowsApart | lib/exportHtml.ts:221 | a part's rowspan ends before the next title row begins |
| Table.SpanFits | lib/exportExcel.ts:129-133 | the rows spanned from a part's first row stay inside the table |
| Table.SpanSumIsRowCount | lib/exportHtml.ts:221 | the rowspans of the title rows add up to the number of rows |
| Table.AppendEmptyPart | app/builder/page.tsx:93-100 | appending a part without items leaves the layout unchanged |
| Text.TrimEmptyIffBlank | app/builder/page.tsx:161 | `trim()` is empty if and only if the string is all whitespace |
| Text.TrimShape | components/ManualItemForm.tsx:21 | a trimmed string is empty or neither starts nor ends with whitespace |
| Text.TrimIdempotent | components/CurriculumEditor.tsx:66-67 | trimming twice is trimming once |
| Text.JsLengthBounds | lib/exportExcel.ts:34 | the UTF-16 `length` lies between the code-point count and twice it, and equals it on the BMP |
| Text.NatToStringDigits | lib/exportPdf.ts:36 | `toString()` of a natural number is a non-empty digit string without a leading zero |
| Text.ParseNatToString | lib/exportPdf.ts:36 | reading back a natural number's decimal string gives the number |
| Text.IntToStringRoundTrip | lib/exportPdf.ts:39 | reading back an integer's decimal string gives the integer |
| Text.IntToStringInjective | lib/exportHtml.ts:220 | different numbers print differently |
| Text.ContainsMiddle | lib/exportHtml.ts:218-225 | a string built around a fragment contains it |
| Lists.Filter | app/builder/page.tsx:110 | the kept elements satisfy the predicate and there are no more than the input |
| Lists.FilterMembers | app/builder/page.tsx:110 | an element is kept if and only if it is in the input and satisfies the predicate |
| Lists.FilterAppend | components/ContentLibrary.tsx:25-28 | filtering a concatenation is concatenating the filtered pieces, so order is kept |
| Lists.FilterKeepsAll | app/builder/page.tsx:140 | filtering with a predicate every element satisfies changes nothing |
| Lists.FilterIdempotent | components/ContentLibrary.tsx:32 | filtering twice is filtering once |
| Filename.ReplaceIllegal | lib/exportPdf.ts:86 | each character that file names forbid (angle brackets, colon, quote, slashes, bar, question mark, star) becomes `-` and every other character is kept, in place |
| Filename.CollapseClean | lib/exportPdf.ts:87 | collapsing whitespace runs leaves no whitespace, no longer text, no illegal character it did not have, and is empty only for empty input |
| Filename.CollapseRun | lib/exportPdf.ts:87 | a whitespace run between non-whitespace text becomes exactly one `_` |
| Filename.SanitizeClean | lib/exportHtml.ts:180-186 | a sanitized name has no illegal character and no whitespace, is no longer than the input and is non-empty for non-empty input |
| Filename.SanitizeFixesClean | lib/exportHtml.ts:180-186 | a name that is already clean is kept as is |
| Filename.SanitizeIdempotent | lib/exportPdf.ts:84-89 | sanitizing twice is sanitizing once |
| Filename.SafeDownloadName | lib/exportPdf.ts:91 | the download name ends with the extension after a non-empty clean stem, even for an empty title |
| Filename.ExcelFilename | lib/exportExcel.ts:154 | the spreadsheet name is the raw title, or 커리큘럼 when the title is empty, plus `.xlsx` |
| Filename.OnlySpreadsheetNameKeepsSlash | lib/exportExcel.ts:154 | a `/` in the title reaches the spreadsheet name but never the PDF or HTML name |
| Filename.CleanTitleSameStem | lib/exportHtml.ts:196 | for a clean non-empty title all three downloads share the title as stem |
| ExcelExport.CeilDivBounds | lib/exportExcel.ts:34 | the rounded-up quotient is the least count of lines that covers the text |
| ExcelExport.LineHeightBounds | lib/exportExcel.ts:93 | a row is at least 20 high, and high enough for its text at the given characters per line |
| ExcelExport.LineHeightMonotone | lib/exportExcel.ts:93 | longer text never gets a lower row |
| ExcelExport.TypeFill | lib/exportExcel.ts:107-119 | column C gets the practice fill, the theory fill, or none, exactly as the item's style |
| ExcelExport.FillByKindCases | lib/exportExcel.ts:107-119 | the fill step sets only C's fill, and only for practice or theory |
| ExcelExport.WorkbookHeader | lib/exportExcel.ts:25-62 | B2, B3 (with 없음 for empty objectives and the height for their length), B4 and the header row 7; every other row above the table is empty |
| ExcelExport.WorkbookItem | lib/exportExcel.ts:65-127 | item j of part i sits on row 8+Start(i)+j with its number, the part title on the first row only, its details, minutes, type fill and height |
| ExcelExport.WorkbookRow | lib/exportExcel.ts:65-127 | every worksheet row below the header is the shared layout's row, finished with the part colour on a first row |
| ExcelExport.WorkbookEndsAfterItems | lib/exportExcel.ts:125-126 | nothing is written below the last item row |
| ExcelExport.WorkbookMerges | lib/exportExcel.ts:129-133 | a merge is in the worksheet if and only if it is column B over the rows of a part with two items or more |
| ExcelExport.PartMergesExactly | lib/exportExcel.ts:131-132 | the merge list holds exactly one range per part with two items or more |
| ExcelExport.MergesOrdered | lib/exportExcel.ts:129-133 | the merged ranges are well formed, below the header and pairwise disjoint in document order |
| ExcelExport.EmptyPartSkipped | lib/exportExcel.ts:70-72 | a part without items leaves the worksheet as if it were absent |
| ExcelExport.WritePartsRow | lib/exportExcel.ts:65-144 | after all parts, each data row holds its layout row, whatever later parts write |
| ExcelExport.Worksheet.constructor | lib/exportExcel.ts:12-19 | a new sheet with its name, the four column widths, no cells and no merges |
| ExcelExport.Worksheet.SetValue | lib/exportExcel.ts:78 | sets one cell's value and changes nothing else |
| ExcelExport.Worksheet.SetFill | lib/exportExcel.ts:139-143 | sets one cell's fill and changes nothing else |
| ExcelExport.Worksheet.SetRowValues | lib/exportExcel.ts:43 | sets the values of A–D in one row and changes nothing else |
| ExcelExport.Worksheet.SetHeight | lib/exportExcel.ts:34 | sets one row's height and changes nothing else |
| ExcelExport.Worksheet.MergeCells | lib/exportExcel.ts:132 | appends one merge and changes no cell |
| ExcelExport.WriteTitleBlock | lib/exportExcel.ts:25-38 | on a fresh sheet, rows 2–4 become the title, objectives and duration rows and nothing else is written |
| ExcelExport.WriteTableHeader | lib/exportExcel.ts:42-62 | row 7 becomes the white-on-teal header with height 25 |
| ExcelExport.WriteItem | lib/exportExcel.ts:72-126 | one item's row becomes the layout row's cells, height and type fill |
| ExcelExport.WriteCells | lib/exportExcel.ts:77-93 | A, B (first row only), C, D and the height of one item row |
| ExcelExport.ColourDetails | lib/exportExcel.ts:106-119 | C gets the practice or theory fill, and is untouched for other types |
| ExcelExport.WritePart | lib/exportExcel.ts:68-143 | the counters advance by the item count, and the sheet becomes the part's rows, merge and part colour |
| ExcelExport.ExportExcel | lib/exportExcel.ts:11-154 | the returned worksheet is the workbook of the data, and the file name is the spreadsheet name |
| PdfExport.PdfRow | lib/exportPdf.ts:35-41 | every body row has the five columns of the head |
| PdfExport.BuildTableData | lib/exportPdf.ts:30-44 | the loop's table data is the PDF body of the parts |
| PdfExport.CellFill | lib/exportPdf.ts:68-80 | only details cells in the body are ever recoloured |
| PdfExport.ExportPdf | lib/exportPdf.ts:19-99 | the title, objectives and duration lines, the header, the body of the parts and the sanitized `.pdf` name |
| PdfExport.PdfRowCount | lib/exportPdf.ts:33-44 | the body has one row per item |
| PdfExport.PdfItemRow | lib/exportPdf.ts:35-41 | item j of part i's row reads back as its running number, the title on the first row only, the details, the minutes and the type label |
| PdfExport.PdfFillByType | lib/exportPdf.ts:68-80 | a body details cell is light orange for practice, light blue for theory and unfilled otherwise |
| PdfExport.PdfHeadNotRecoloured | lib/exportPdf.ts:70 | head cells are never recoloured |
| PdfExport.PdfTitleOnce | lib/exportPdf.ts:37 | the title column shows a part's title on its first row only, and a part without items shows it nowhere |
| HtmlExport.TypeClassFollowsStyle | lib/exportHtml.ts:215-216 | the CSS class is practice, theory or demo exactly as the item's style |
| HtmlExport.RowsTextIsConcat | lib/exportHtml.ts:218-225 | the accumulated string is the concatenation of one fragment per row, in order |
| HtmlExport.ItemFragment | lib/exportHtml.ts:214-225 | the fragment for item j is the HTML row of its layout row |
| HtmlExport.AppendPartRows | lib/exportHtml.ts:211-228 | after a part, the string and the counter cover one more part of the layout |
| HtmlExport.GenerateTableRows | lib/exportHtml.ts:207-232 | the returned rows are the table rows of the parts |
| HtmlExport.ExportHtml | lib/exportHtml.ts:14-196 | the title, the heading, objectives or 없음, the duration, the header cells, the table rows and the sanitized `.html` name |
| HtmlExport.HtmlRowNumbers | lib/exportHtml.ts:220 | there is one fragment per item, and fragment k shows number k+1 |
| HtmlExport.RowspansCoverRows | lib/exportHtml.ts:221 | the rowspans add up to the number of body rows |
| HtmlExport.HtmlItemRow | lib/exportHtml.ts:218-225 | item j of part i's fragment contains its details, and on the first row the part cell with rowspan equal to the item count |
| Agreement.ExportsAgreeOnItem | lib/exportPdf.ts:35-41 | for every item, the worksheet row, the PDF row and the HTML row agree on number, details, minutes and type colour |
| Agreement.WorkbookTitleCell | lib/exportExcel.ts:81-83 | B of an item row holds the part title on its first row and nothing otherwise |
| Agreement.PdfTitleCell | lib/exportPdf.ts:37 | the PDF title column holds the part title on the first row and is empty otherwise |
| Agreement.HtmlTitleCell | lib/exportHtml.ts:221 | an HTML row has the part cell if and only if it is the part's first, with rowspan equal to the item count |
| Agreement.PartMergedIffTwoItems | lib/exportExcel.ts:131 | the worksheet merges column B over a part's rows if and only if the part has two items or more |
| Dashboard.Materialize | app/dashboard/page.tsx:97-115 | the parts are usable exactly when every stored part has its items array, and then they are kept as stored |
| Dashboard.ExportRequest | app/dashboard/page.tsx:85-115 | a null curriculum response body is not found; otherwise the export gets the record's title and duration, the objectives or empty text, and the normalized parts |
| Dashboard.PdfExportRequest | app/dashboard/page.tsx:123-173 | the PDF handler never reports not found: it fails exactly on a null curriculum response body or a stored part without items |
| Dashboard.PdfDiffersOnlyOnNullBody | app/dashboard/page.tsx:131-137 | the PDF handler differs from the spreadsheet and HTML handlers exactly on a null curriculum response body, failing where they report not found |
| Dashboard.StoredPartsUsedAsIs | app/dashboard/page.tsx:97-99 | a saved part list comes back unchanged |
| Dashboard.FlatWrapped | app/dashboard/page.tsx:100-106 | a legacy flat array becomes the single part 기본 (id `default`) holding the same items |
| Dashboard.NormalizeIdempotent | app/dashboard/page.tsx:95-107 | normalizing an already normalized payload changes nothing |
| Dashboard.FallbacksExportNoRows | app/api/curriculum-items/route.ts:25 | the endpoint's fallbacks (error, and no items) export no rows |
| Dashboard.ExportFailsOnMissingItems | app/dashboard/page.tsx:110-118 | the export fails exactly when some stored part lacks its items array |
| Builder.LoadParts | app/builder/page.tsx:60-71 | loading succeeds exactly when every stored part has its items array |
| Builder.LoadIsLoadParts | app/builder/page.tsx:60-86 | both stored shapes, and the fallback, go through the same part loader |
| Builder.LoadKeepsShape | app/builder/page.tsx:62-70 | a loaded part keeps its id or gets a fresh one, keeps its title or gets 기본; each item gets a fresh id and keeps its details and minutes but not its type |
| Builder.ItemDrawIncreasing | app/builder/page.tsx:66 | item ids are drawn in document order, each after the last |
| Builder.LoadedItemIdsFresh | app/builder/page.tsx:62-83 | loaded item ids are pairwise distinct and unlike any id drawn before |
| Builder.ReopenDropsTypes | app/builder/page.tsx:65-69 | saving and reopening keeps ids, titles, details and minutes but resets every type to demo |
| Builder.NormalizationsAgree | app/builder/page.tsx:60-86 | the builder and the dashboard accept the same payloads and see the same titles, details and minutes |
| Builder.AddPartAppends | app/builder/page.tsx:93-100 | a new empty part 새 파트 is appended with a fresh id; the rows and unique part ids are kept |
| Builder.RenameOnlyTitle | app/builder/page.tsx:102-106 | only the named parts' titles change; ids, items and unique part ids are kept |
| Builder.RenameLastWins | app/builder/page.tsx:102-106 | renaming twice is renaming once to the last title; an unknown id changes nothing |
| Builder.DeleteRemovesExactly | app/builder/page.tsx:108-112 | exactly the parts with the id go, order is kept, and deleting is idempotent |
| Builder.DeleteKeepsUniqueIds | app/builder/page.tsx:110 | deleting keeps part ids unique |
| Builder.RemoveItemOnlyNamedPart | app/builder/page.tsx:137-144 | only the named part loses exactly the items with the id |
| Builder.SetItemTypeOnlyType | app/builder/page.tsx:146-158 | only the matching item's type changes, and the item count is kept |
| Builder.FindPart | app/builder/page.tsx:116 | the first part with the id, or nothing when no part has it |
| Builder.AddItemCases | app/builder/page.tsx:114-135 | a duplicate or an unknown part leaves the parts alone; otherwise the item, with the new id, is appended to the named part only |
| Builder.AddItemCount | app/builder/page.tsx:128-134 | adding a new item to an existing part adds exactly one row and keeps part ids unique |
| Builder.LibraryItem | app/builder/page.tsx:299-302 | an item taken from the library becomes a demo and keeps its details and duration |
| Builder.LibraryAddAsWrittenLosesItem | app/builder/page.tsx:290-303 | as written, adding from the library to an empty curriculum creates an empty part and loses the item |
| Builder.LibraryAddFixesOnlyEmpty | app/builder/page.tsx:286-304 | the corrected add differs from the written one only on an empty curriculum with no part being edited |
| Builder.LibraryAddLandsItem | app/builder/page.tsx:286-304 | with no part being edited, the item lands at the end of the last part, or of a new part when there is none |
| Builder.SaveRequestOf | app/builder/page.tsx:160-173 | a save is refused exactly when the title is blank or no category is chosen; otherwise it carries the form and the parts |
| Builder.SavedIsExported | lib/data.ts:243 | what a save stores is exported by the dashboard as exactly the saved parts |
| Builder.BuilderPage.constructor | app/builder/page.tsx:14-22 | an empty form with 120 minutes, no parts, no part being edited |
| Builder.BuilderPage.Draw | app/builder/page.tsx:95 | the next id of the random supply |
| Builder.BuilderPage.LoadCurriculum | app/builder/page.tsx:41-91 | a found curriculum sets the form; the parts become the loaded parts, or stay when loading throws |
| Builder.BuilderPage.HandleAddPart | app/builder/page.tsx:93-100 | the parts become AddPart with a fresh id |
| Builder.BuilderPage.HandleUpdatePartTitle | app/builder/page.tsx:102-106 | the parts become RenamePart |
| Builder.BuilderPage.HandleDeletePart | app/builder/page.tsx:108-112 | the parts become DeletePart if confirmed and are unchanged otherwise |
| Builder.BuilderPage.HandleAddItemToPart | app/builder/page.tsx:114-135 | the parts become AddItemToPart with a fresh id |
| Builder.BuilderPage.HandleRemoveItemFromPart | app/builder/page.tsx:137-144 | the parts become RemoveItem |
| Builder.BuilderPage.HandleUpdateItemType | app/builder/page.tsx:146-158 | the parts become SetItemType; the handler is never passed to the editor (app/builder/page.tsx:259-280), so no control reaches it |
| Builder.BuilderPage.SetEditingPart | app/builder/page.tsx:276 | records the part being edited and changes nothing else |
| Builder.BuilderPage.AddLibraryItem | app/builder/page.tsx:286-304 | the parts become the corrected library add, which agrees with the page except on an empty curriculum with no part being edited |
| Builder.BuilderPage.HandleSave | app/builder/page.tsx:160-173 | the request is refused exactly when the title is blank or no category is set; otherwise it carries the form and the parts |
| Editor.RemainingTime | components/CurriculumEditor.tsx:56 | the remaining time is the planned minus used time floored at 0, and 0 exactly when used time reaches the plan |
| Editor.UsedTimeIsItemMinutes | components/CurriculumEditor.tsx:53-55 | the used time is the sum of the minutes of all items |
| Editor.UsedTimeOfSameItems | components/CurriculumEditor.tsx:53-55 | parts with the same items have the same used time |
| Editor.AppendItemUsedTime | components/CurriculumEditor.tsx:53-55 | appending an item to an existing part adds its minutes to the used time |
| Editor.AddingTimeNeverRaisesRemaining | components/CurriculumEditor.tsx:56 | adding minutes never raises the remaining time, nor lowers it by more than was added |
| Editor.CommitTitleTrimmed | components/CurriculumEditor.tsx:65-72 | a blank edit changes nothing; otherwise only the named parts take the trimmed title |
| Editor.PartTitleEditor.constructor | components/CurriculumEditor.tsx:49-50 | no part is being edited and the edited title is empty |
| Editor.PartTitleEditor.StartEdit | components/CurriculumEditor.tsx:59-63 | records the part and its current title, and tells the page |
| Editor.PartTitleEditor.EditTitle | components/CurriculumEditor.tsx:50 | the edited title becomes the typed text |
| Editor.PartTitleEditor.SaveTitle | components/CurriculumEditor.tsx:65-72 | the page commits the trimmed title unless blank; editing ends here and on the page |
| Editor.PartTitleEditor.CancelEdit | components/CurriculumEditor.tsx:74-78 | editing ends here and on the page, and no part changes |
| Editor.ManualItem | components/CurriculumEditor.tsx:311-316 | a manual item is a demo with the submitted details and minutes |
| Editor.ManualAddLands | components/CurriculumEditor.tsx:311-317 | a valid manual submission lands at the end of its part as a trimmed demo item with a fresh id |
| Editor.BadgeFollowsStyle | components/CurriculumEditor.tsx:281-290 | two badges look alike if and only if the styles match; an unset type shows as 시연 |
| Library.UsedDetails | app/builder/page.tsx:285 | the used details are the details of every item in document order |
| Library.CompactView | components/ContentLibrary.tsx:62 | the compact list is the first ten results, or all of them when there are fewer |
| Library.FilteredMembers | components/ContentLibrary.tsx:22-34 | an item is listed if and only if its details are unused and, for a non-blank query, contain the query case-folded |
| Library.FilteredKeepsOrder | components/ContentLibrary.tsx:25-32 | the listing keeps the library's order |
| Library.BlankQueryListsUnused | components/ContentLibrary.tsx:30-33 | a blank query lists every unused item |
| Library.ItemInUsed | app/builder/page.tsx:285 | every item's details are in the used list |
| Library.ListedItemsAreNoDuplicates | components/ContentLibrary.tsx:27 | a listed item is never a duplicate in any part |
| ManualForm.Validate | components/ManualItemForm.tsx:15-23 | a submission is refused exactly when the details are blank; otherwise it is the trimmed details with the duration |
| ManualForm.SubmissionTrimmed | components/ManualItemForm.tsx:21 | the submitted details are non-empty and neither start nor end with whitespace |
| ManualForm.ManualItemForm.constructor | components/ManualItemForm.tsx:11-12 | empty details and duration 0 |
| ManualForm.ManualItemForm.SetDetails | components/ManualItemForm.tsx:11 | the details become the typed text |
| ManualForm.ManualItemForm.SetDuration | components/ManualItemForm.tsx:41 | the duration becomes the entered number |
| ManualForm.ManualItemForm.Submit | components/ManualItemForm.tsx:14-28 | emits the validated submission and resets the form, or keeps the form when refused |
| Middleware.HasSession | middleware.ts:13-14 | there is no session without a session cookie |
| Middleware.DecideCases | middleware.ts:17-30 | to the login page exactly for a protected non-API path without a session; to the dashboard exactly for /login with a session; otherwise through |
| Middleware.ApiNeverToLogin | middleware.ts:17 | API paths are never redirected to the login page |
| Middleware.LoginPrefixIsPublic | middleware.ts:9-10 | every path starting with /login is public and passes without a session |
| Middleware.RedirectsSettle | middleware.ts:17-28 | a redirect's target itself passes, so there is no redirect loop |
| Middleware.NoCookieNoSession | middleware.ts:13-14 | without a cookie nobody is sent to the dashboard |

## Left out

- Fonts, borders, alignment and column widths are recorded only as constants. Their visual effect is not modelled.
- The duration line shows `(minutes / 60).toFixed(1)`. It is kept symbolic (`DurationLine`), because its decimal rounding is floating point.
- The HTML page's fixed markup and CSS are left out. The page is modelled as its title, heading, objectives, duration, header cells and row string.
- JavaScript interpolation of a missing string as `undefined` is not modelled. Strings are always present.
- Dashboard.ExportRequest: an unknown curriculum id is answered with a truthy 404 `{error}` body (app/api/curriculums/route.ts:18-22), and the handlers neither check the status nor see `!curriculum` hold, so such a record is exported like any other, with undefined title and duration, over the items endpoint's fallback. The model's `None` record stands only for a null response body, and undefined fields are not modelled.
- Blob creation, the download link, `setTimeout`, `console` and the workbook's binary writer are left out as I/O.
- `crypto.randomUUID` is an injective supply `uuid: nat -> string` with a counter of ids drawn.
- Builder.BuilderPage.AddLibraryItem computes the corrected library add (`Builder.LibraryAdd`), not the page as written: on an empty curriculum with no part being edited the page only appends an empty part and drops the item (see Findings); `Builder.LibraryAddFixesOnlyEmpty` proves the two agree on every other input.
- Builder.BuilderPage.AddLibraryItem draws two ids each time. The source draws the part id only when it creates a part. Only distinctness matters.
- Builder.BuilderPage.HandleAddItemToPart draws one id and gives it to every part with the id. The source draws one per matching part. This is the same when part ids are unique.
- `confirm` and `alert` are modelled as a parameter (`confirmed`) or as a refused outcome.
- `fetch`, `async`/`await` and the API routes are modelled as the data they return. React's scheduling of state updates is also left out: each handler sees the state at the time of the call.
- `toLowerCase` is a parameter of the library filter, because Unicode case mapping is not modelled.
- The library's loading flag and the fetch of items are left out.
- The middleware's `matcher` config, which picks the paths the guard runs on, is left out.
- JWT verification is a parameter `verify` of the session check.
- The builder's cancel button (router navigation) and category loading are left out.
- The editor's `progressPercent` is left out because it is floating point.
- Item durations are integers (`Item.duration: Option<int>`, ManualForm.ManualItemForm.SetDuration takes an `int`). The number input's `Number(value)` can be fractional (for example 1.5), and fractional minutes in the used and remaining time and in the exports are not modelled.
- Category management and the other pages are not part of this model.
- The POST/PUT of the save request and the server's storage step are not modelled. `Storage.Store` models only the `{parts}` payload the server writes (lib/data.ts:243); its round trip is `Builder.SavedIsExported`.

## Findings

| source | as written | input that shows it | evidently intended | confidence | as-written member | corrected member |
|---|---|---|---|---|---|---|
| app/builder/page.tsx:290-303 | with no part being edited and no parts, the library add creates a part and then reads the stale `parts`, so the target is undefined and the item is dropped | an empty curriculum with no part being edited; click any library item | the item lands in the newly created part | not executed | Builder.LibraryAddAsWrittenLosesItem | Builder.LibraryAddLandsItem |
