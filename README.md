# Certificate generator: a verified model of its state and derivations

The certificate generator is a browser page. The user fills in a five-field
certificate record (recipient, course, completion date, issuer, issuer
title) and picks one of four designs (classic, modern, elegant, corporate).
They can also upload a spreadsheet whose first column holds recipient names.
With no names, the page previews the record itself. With names, a batch
navigator walks over them, showing the same record with each name as the
recipient in turn.

This project models that logic in Dafny and proves what it promises:

- `ExcelUpload` (`excel_upload.dfy`): which uploaded files count as
  spreadsheets; the loop that turns the first sheet's rows into names; the
  choice between handing the names on and reporting "No Names Found"; and
  the `selectedFile`/`isProcessing` state, as the class `ExcelUploader`.
- `BatchCertificates` (`batch_certificates.dfy`): the current index stays
  between the ends of the list. The displayed record is derived from the
  base record. Previous/Next enablement and the counter come from the index.
  The component state is the class `BatchNavigator`.
- `CertificatePreview` (`certificate_preview.dfy`): the design-to-styles
  lookup, the placeholder texts, the empty-date case of `formatDate`, the
  download-enabled test and the download stub.
- `CertificateForm` (`certificate_form.dfy`): the single-field record
  update and how the five inputs are wired to the fields.
- `CertificateDesigns` (`certificate_designs.dfy`): the design enumeration,
  the table of design cards and which card is drawn as selected.
- `IndexPage` (`index_page.dfy`): the page's four state slots, as the class
  `CertificateApp`, its handlers, and the choice between single and batch
  preview.
- Support modules: `CertificateRecord` (the record and its keys), `JsString`
  (JavaScript's `trim` and `endsWith`), `Notifications` (the toasts raised)
  and `Wrappers` (`Option`).

Inputs that come from outside the modelled code are parameters:

- the spreadsheet reader's output (`SheetRead`: the first sheet's rows, or
  a failure);
- the file the browser reports (`FileInfo`);
- the runtime's long-form date formatter (`toLocaleLong`);
- whether the certificate element is mounted when download is clicked.

Facts about the code that shape the model:

- The design type has four values, `classic`, `modern`, `elegant` and
  `corporate` (src/components/CertificateDesigns.tsx:6). There is no
  custom design and no image-upload path that selects one.
- `formatDate` returns `''` for an empty date. It passes any other date to
  `new Date(...).toLocaleDateString` (src/components/CertificatePreview.tsx:17-25),
  whose result the model leaves to the `toLocaleLong` parameter.
- The page passes `customBackgroundUrl` to three components that do not
  declare it (src/pages/Index.tsx:70, 90, 97). It also passes
  `onCustomBackgroundUpload` (src/pages/Index.tsx:71), which
  `CertificateDesigns` does not declare either
  (src/components/CertificateDesigns.tsx:8-11), so nothing in the shown code
  calls the handler. The model keeps the page's state slot and its handler,
  and nothing reads the slot.

## Model

| member | source | states |
|---|---|---|
| JsString.IsWhitespace | src/components/ExcelUpload.tsx:78-79 | the characters `String.prototype.trim` removes: ECMAScript's WhiteSpace and LineTerminator sets; its properties are given by the Trim lemmas below |
| JsString.Trim | src/components/ExcelUpload.tsx:78-79 | `trim`: leading then trailing whitespace removed; characterised by TrimIsTrimmed, TrimIsInfix and TrimOfPadded |
| JsString.EndsWith | src/components/ExcelUpload.tsx:23-24 | `endsWith`: the last characters equal the suffix; characterised by EndsWithIffConcat |
| JsString.TrimIsTrimmed | src/components/ExcelUpload.tsx:78-79 | a trimmed string has no whitespace at either end |
| JsString.TrimIsInfix | src/components/ExcelUpload.tsx:78-79 | trim's result is a contiguous piece of the input with only whitespace around it |
| JsString.TrimOfPadded | src/components/ExcelUpload.tsx:78-79 | padding a trimmed string with whitespace on both sides and trimming it gives it back (characterises trim) |
| JsString.TrimIdempotent | src/components/ExcelUpload.tsx:78-79 | trimming twice equals trimming once |
| JsString.TrimOfTrimmed | src/components/ExcelUpload.tsx:78-79 | trim leaves a string without edge whitespace unchanged |
| JsString.EndsWithIffConcat | src/components/ExcelUpload.tsx:23-24 | `endsWith(s, t)` holds iff s is some prefix followed by t |
| ExcelUpload.FirstCell | src/components/ExcelUpload.tsx:77-78 | `row[0]`, which is undefined on an empty row; used by NamesAreNameRowsInOrder |
| ExcelUpload.IsNameCell | src/components/ExcelUpload.tsx:78 | the row test: truthy, a string, and a truthy trim; consequences in NamesAreTrimmed and NamesAreNameRowsInOrder |
| ExcelUpload.IsNameRow | src/components/ExcelUpload.tsx:78 | the row test applied to a row's first cell; see NamesAreNameRowsInOrder |
| ExcelUpload.RowName | src/components/ExcelUpload.tsx:79 | the pushed value `row[0].trim()`; see NamesAreTrimmed |
| ExcelUpload.NamesOf | src/components/ExcelUpload.tsx:75-81 | the names the loop collects, as a function of the rows; ExtractNames computes it and NamesAreNameRowsInOrder, NamesAreTrimmed, NamesAtMostRows and ExtractionIdempotent state its properties |
| ExcelUpload.NamesOfAppendRow | src/components/ExcelUpload.tsx:76-81 | one more row adds that row's trimmed first cell if it passes the row test, and nothing otherwise |
| ExcelUpload.ExtractNames | src/components/ExcelUpload.tsx:75-81 | the loop's result equals `NamesOf(rows)`, the in-order list of trimmed first cells of the name rows |
| ExcelUpload.NamesAtMostRows | src/components/ExcelUpload.tsx:76-81 | there are never more names than rows |
| ExcelUpload.NamesAreTrimmed | src/components/ExcelUpload.tsx:78-79 | every extracted name is non-empty, has no edge whitespace and is its own trim |
| ExcelUpload.NamesAreNameRowsInOrder | src/components/ExcelUpload.tsx:75-81 | names correspond one-to-one and in row order to the rows whose first cell is a string with a non-empty trim; every such row contributes; absent, non-string and blank first cells contribute nothing |
| ExcelUpload.NameColumnRoundTrip | src/components/ExcelUpload.tsx:76-81 | a sheet whose first column holds already-trimmed non-empty names yields exactly those names |
| ExcelUpload.ExtractionIdempotent | src/components/ExcelUpload.tsx:76-81 | extracting from a column of extracted names gives the same names |
| ExcelUpload.IsSpreadsheet | src/components/ExcelUpload.tsx:21-24 | the acceptance test shared by file selection and by drop (also lines 41-44); characterised by SpreadsheetIffTypeOrExtension |
| ExcelUpload.SpreadsheetIffTypeOrExtension | src/components/ExcelUpload.tsx:21-24 | a file is accepted iff its type is one of the two spreadsheet MIME types or its name is something followed by `.xlsx` or `.xls` |
| ExcelUpload.UpperCaseExtensionRefused | src/components/ExcelUpload.tsx:23-24 | the extension test is case-sensitive: `NAMES.XLSX` with an unknown type is refused |
| ExcelUpload.ExcelUploader.constructor | src/components/ExcelUpload.tsx:14-15 | no file is selected and nothing is processing |
| ExcelUpload.ExcelUploader.HandleFileSelect | src/components/ExcelUpload.tsx:18-34 | an accepted file becomes the selected file; a refused one leaves the selection and raises "Invalid File Type", a destructive toast; no file does nothing |
| ExcelUpload.ExcelUploader.HandleDrop | src/components/ExcelUpload.tsx:36-54 | drag-and-drop applies the same acceptance test with the same outcomes as file selection |
| ExcelUpload.ExcelUploader.ProcessExcelFile | src/components/ExcelUpload.tsx:65-105 | with no file nothing happens; otherwise onNamesExtracted is called exactly once, with the extracted names, iff there are any; else only "No Names Found" or, on a read failure, "Error Processing File" is raised; `isProcessing` ends false; the selection is kept; at most one toast is raised, and it is destructive exactly when no names were handed on |
| ExcelUpload.ExcelUploader.ClearFile | src/components/ExcelUpload.tsx:107-109 | the selection becomes empty and no other state changes |
| BatchCertificates.NameAt | src/components/BatchCertificates.tsx:21 | the entry at the index, or `''` when it is off the list; its cases are stated by CurrentCertificateData |
| BatchCertificates.NextIndex | src/components/BatchCertificates.tsx:24-28 | the guarded increment of nextCertificate; see StepKeepsIndexOk, DisabledIffNoMove, NextThenPrev |
| BatchCertificates.PrevIndex | src/components/BatchCertificates.tsx:30-34 | the guarded decrement of prevCertificate; see StepKeepsIndexOk, DisabledIffNoMove, NextThenPrev |
| BatchCertificates.PrevDisabled | src/components/BatchCertificates.tsx:60 | `currentIndex === 0`; see DisabledIffNoMove |
| BatchCertificates.NextDisabled | src/components/BatchCertificates.tsx:68 | `currentIndex === names.length - 1`; see DisabledIffNoMove |
| BatchCertificates.Counter | src/components/BatchCertificates.tsx:53 | the pair shown as "Certificate i of n"; see CounterOnList |
| BatchCertificates.Walk | src/components/BatchCertificates.tsx:24-34 | the index after a sequence of button presses; see WalkStaysOnList |
| BatchCertificates.CurrentCertificateData | src/components/BatchCertificates.tsx:19-22 | the displayed record has `names[index]` as recipient, or `''` when the index is off the list, and the base record's other four fields |
| BatchCertificates.StepKeepsIndexOk | src/components/BatchCertificates.tsx:24-34 | next and previous each keep the index in range |
| BatchCertificates.WalkStaysOnList | src/components/BatchCertificates.tsx:17-34 | from a valid index (such as the start, 0), every sequence of next/previous presses keeps 0 <= index <= length - 1 on a non-empty list |
| BatchCertificates.DisabledIffNoMove | src/components/BatchCertificates.tsx:56-71 | Previous is disabled iff the index is 0 iff pressing it changes nothing; Next likewise at length - 1 |
| BatchCertificates.NextThenPrev | src/components/BatchCertificates.tsx:24-34 | away from the last entry, next then previous returns to the same index |
| BatchCertificates.CounterOnList | src/components/BatchCertificates.tsx:53 | the counter shows a position from 1 to the number of names, out of the number of names |
| BatchCertificates.StaleIndexAfterNewBatch | src/components/BatchCertificates.tsx:17-68 | as written, an index kept from a three-name list is off a new one-name list: the counter reads 3 of 1, the recipient is `''`, Next is enabled and does nothing |
| BatchCertificates.NewBatchStartsOnList | src/components/BatchCertificates.tsx:17-68 | a new non-empty list started at index 0 has its counter, recipient and buttons on the list |
| BatchCertificates.BatchNavigator.constructor | src/components/BatchCertificates.tsx:17 | the index starts at 0 |
| BatchCertificates.BatchNavigator.NextCertificate | src/components/BatchCertificates.tsx:24-28 | the index goes up by one iff it is below length - 1, else stays; the list is unchanged; validity is kept |
| BatchCertificates.BatchNavigator.ReceiveNames | src/pages/Index.tsx:85-92 | a new list from the page restarts the index at 0 and keeps validity (corrected behaviour, see Findings) |
| BatchCertificates.BatchNavigator.PrevCertificate | src/components/BatchCertificates.tsx:30-34 | the index goes down by one iff it is above 0, else stays; the list is unchanged; validity is kept |
| CertificatePreview.GetDesignClasses | src/components/CertificatePreview.tsx:44-91 | the switch on the design with its classic default; see LookupOfDesign, ClassesInColourFamily, DesignsLookDifferent, UnknownDesignIsClassic |
| CertificatePreview.LookupOfDesign | src/components/CertificatePreview.tsx:44-81 | each of the four designs selects its own fixed style tuple |
| CertificatePreview.ClassesInColourFamily | src/components/CertificatePreview.tsx:46-81 | each tuple is drawn in one colour family (blue, green, purple, gray): border, title, course, seal and name underline |
| CertificatePreview.DesignsLookDifferent | src/components/CertificatePreview.tsx:46-81 | distinct designs have distinct colours and distinct style tuples |
| CertificatePreview.UnknownDesignIsClassic | src/components/CertificatePreview.tsx:82-90 | any value that is none of the four designs falls back to the classic tuple |
| CertificatePreview.CardPreviewsMatchCertificates | src/components/CertificateDesigns.tsx:13-38 | each design card's preview is the background and border that the preview lookup (CertificatePreview.tsx:47-81) gives the same design |
| CertificatePreview.FormatDate | src/components/CertificatePreview.tsx:17-25 | `''` for an empty date, else the runtime formatter's result; see RenderShowsDataOrPlaceholder |
| CertificatePreview.OrPlaceholder | src/components/CertificatePreview.tsx:121 | the value, or the placeholder when the value is empty; see RenderShowsDataOrPlaceholder and RenderNeverBlank |
| CertificatePreview.DownloadEnabled | src/components/CertificatePreview.tsx:155 | enabled iff recipient and course are both non-empty; see DownloadIffRequiredFields |
| CertificatePreview.Render | src/components/CertificatePreview.tsx:96-165 | the texts, styles, button state and hint of the template; see RenderShowsDataOrPlaceholder, RenderNeverBlank, DownloadIffRequiredFields |
| CertificatePreview.RenderShowsDataOrPlaceholder | src/components/CertificatePreview.tsx:112-139 | each text is the record's value when non-empty and otherwise "Recipient Name", "Course/Achievement Name", "Issuer Name" or "Title"; an empty date shows "Date"; the styles are the design's |
| CertificatePreview.RenderNeverBlank | src/components/CertificatePreview.tsx:121-139 | no text slot of the certificate is ever blank |
| CertificatePreview.DownloadIffRequiredFields | src/components/CertificatePreview.tsx:151-165 | download is enabled iff recipient and course are both non-empty, and the hint is shown iff it is disabled |
| CertificatePreview.DownloadCertificate | src/components/CertificatePreview.tsx:27-42 | download raises only the "Download Feature" notice, and only when enabled and mounted; that notice is not destructive; it takes the record as input only and yields no record |
| Notifications.Toast.Title | src/components/ExcelUpload.tsx:27-101 | the `title:` of each toast (also CertificatePreview.tsx:31-34); used by the ensures of HandleFileSelect, HandleDrop and DownloadCertificate, and by TitlesIdentifyToasts |
| Notifications.Toast.Destructive | src/components/ExcelUpload.tsx:27-101 | `variant: "destructive"` on the Invalid File Type, No Names Found and Error Processing File toasts, absent on Success and on Download Feature (CertificatePreview.tsx:31-34); used by the ensures of HandleFileSelect, ProcessExcelFile and DownloadCertificate |
| Notifications.TitlesIdentifyToasts | src/components/ExcelUpload.tsx:27-100 | with "Download Feature" at CertificatePreview.tsx:31-34, toasts with the same title are the same kind, so the titles "Invalid File Type", "No Names Found", "Success", "Error Processing File" and "Download Feature" tell them apart |
| CertificateRecord.Field.Key | src/pages/Index.tsx:9-15 | the five `keyof CertificateData` names; see KeysDistinct |
| CertificateRecord.Get | src/components/CertificateForm.tsx:13 | `data[field]` for each key; see FieldwiseEqual and the HandleChange lemmas |
| CertificateRecord.Blank | src/pages/Index.tsx:18-24 | every field of the initial record is empty |
| CertificateRecord.KeysDistinct | src/pages/Index.tsx:9-15 | the five keys name five distinct properties |
| CertificateRecord.FieldwiseEqual | src/pages/Index.tsx:9-15 | a record is determined by its five fields |
| CertificateForm.HandleChange | src/components/CertificateForm.tsx:13-18 | the new record has the edited field set to the value and the other four fields of the old record |
| CertificateForm.HandleChangeIdempotent | src/components/CertificateForm.tsx:14-17 | the same edit applied twice equals applying it once |
| CertificateForm.HandleChangeLastWins | src/components/CertificateForm.tsx:14-17 | of two edits to one field the later wins |
| CertificateForm.HandleChangeCommutes | src/components/CertificateForm.tsx:14-17 | edits to different fields commute |
| CertificateForm.HandleChangeUnchanged | src/components/CertificateForm.tsx:14-17 | writing a field's own value back gives the same record |
| CertificateForm.Inputs | src/components/CertificateForm.tsx:26-84 | the field each of the five inputs is bound to, in page order; see InputsRouteToDistinctFields |
| CertificateForm.InputValue | src/components/CertificateForm.tsx:26-84 | the `value=` of an input: its field of the record; see EditShowsOnlyInItsInput |
| CertificateForm.EditInput | src/components/CertificateForm.tsx:26-84 | the `onChange=` of an input: HandleChange on its own field; see EditShowsOnlyInItsInput |
| CertificateForm.InputsRouteToDistinctFields | src/components/CertificateForm.tsx:26-84 | the five inputs route to recipientName, courseName, completionDate, issuerName and issuerTitle, each to its own field, covering all five |
| CertificateForm.EditShowsOnlyInItsInput | src/components/CertificateForm.tsx:26-84 | typing into an input shows the value in that input and changes no other input |
| CertificateDesigns.Designs | src/components/CertificateDesigns.tsx:13-38 | the table of design cards; see TableListsEachDesignOnce and CardPreviewsMatchCertificates |
| CertificateDesigns.IsSelected | src/components/CertificateDesigns.tsx:56 | `selectedDesign === design.id`; see ExactlyOneCardSelected |
| CertificateDesigns.Design.Id | src/components/CertificateDesigns.tsx:6 | the run-time string of each design, which the style switch and the selection test compare; see IdInjective and LookupOfDesign |
| CertificateDesigns.IdInjective | src/components/CertificateDesigns.tsx:6 | the four designs have four distinct run-time values |
| CertificateDesigns.TableListsEachDesignOnce | src/components/CertificateDesigns.tsx:13-38 | the table lists classic, modern, elegant and corporate, each exactly once, in that order |
| CertificateDesigns.ExactlyOneCardSelected | src/components/CertificateDesigns.tsx:46-59 | a card is drawn as selected iff its id equals the selected design, so exactly one card is |
| IndexPage.PreviewPaneOf | src/pages/Index.tsx:85-99 | the batch navigator over the names and the page's record is shown iff there are names; otherwise the single preview of the page's record |
| IndexPage.DisplayedRecord | src/pages/Index.tsx:85-99 | the record handed to the preview: the page's record in single mode, `currentCertificateData` (BatchCertificates.tsx:79) in batch mode; see DisplayedRecordSharesFields |
| IndexPage.DisplayedRecordSharesFields | src/pages/Index.tsx:85-99 | in either mode the rendered record differs from the page's record in the recipient at most, and download depends on the rendered recipient and the page's course |
| IndexPage.CertificateApp.constructor | src/pages/Index.tsx:18-28 | initial state: empty record, no names, classic design, empty background URL |
| IndexPage.CertificateApp.SetCertificateData | src/pages/Index.tsx:59-62 | the form's new record replaces the page's record; nothing else changes |
| IndexPage.CertificateApp.SetSelectedDesign | src/pages/Index.tsx:67-69 | the chosen design becomes the selected design; nothing else changes |
| IndexPage.CertificateApp.HandleNamesExtracted | src/pages/Index.tsx:30-32 | the names replace the batch wholesale; record and design are unchanged |
| IndexPage.CertificateApp.ClearBatch | src/pages/Index.tsx:34-36 | the batch becomes empty, the record is unchanged, and the single preview of that record is shown |
| IndexPage.CertificateApp.Preview | src/pages/Index.tsx:85-99 | the preview column as a function of the page state; PreviewPaneOf states its cases and ClearBatch uses it |
| IndexPage.CertificateApp.HandleCustomBackgroundUpload | src/pages/Index.tsx:38-40 | only the background URL changes |
| IndexPage.SampleRowNames | src/components/ExcelUpload.tsx:78-79 | of the sample first column "Alice", "", 42, "  Bob  ", "Carol", the empty and numeric cells fail the row test and "  Bob  " contributes "Bob" |
| IndexPage.SampleRowsYieldThreeNames | src/components/ExcelUpload.tsx:75-81 | the sample yields exactly Alice, Bob, Carol |
| IndexPage.SampleBatchWalkthrough | src/components/BatchCertificates.tsx:19-28 | with the modern design and one Next, Bob's certificate is drawn with the green tuple; clearing the batch shows the page's own record |

## Left out

- Parsing the workbook (`XLSX.read`, `sheet_to_json`) and reading the file's bytes are external. Their result is the `SheetRead` parameter; every failure among them is the one `ReadFailed` case.
- ExcelUpload.ExcelUploader.ProcessExcelFile: the model is synchronous, so the interval during the asynchronous read, while `isProcessing` is true and the button is disabled, is not visible. Only the before and after states are modelled.
- `isDragging` and the drag-over/drag-leave handlers only affect styling; `handleDrop`'s reset of `isDragging` and `preventDefault` are not modelled.
- Date parsing and `toLocaleDateString` are locale-dependent runtime code. Only the empty-date case of `formatDate` is modelled; other dates go to the `toLocaleLong` parameter.
- Toast rendering, toast description texts beyond the extracted count, the html2canvas stub, DOM references, and all JSX and Tailwind rendering beyond the style-tuple strings.
- The catch branch of `downloadCertificate` is not modelled: showing a toast cannot fail in the model.
- React re-rendering is not modelled in general. The navigator's list changes only through `ReceiveNames`, which follows the corrected behaviour under Findings.
- Strings are sequences of Unicode scalar values, not of UTF-16 code units, so a string holding a lone surrogate cannot be written. No behaviour is lost: every character `trim` strips and every character of `.xlsx` and `.xls` is a single code unit.
- The custom background: nothing in the modelled code reads `customBackgroundUrl`, and the design type has no custom variant.
- The Name line of the navigator (`names[currentIndex]` rendered as text) is not modelled apart from the record's recipient.

## Findings

| source | as written | input that shows it | evidently intended | confidence | as-written member | corrected member |
|---|---|---|---|---|---|---|
| src/components/BatchCertificates.tsx:17 | The upload control stays visible beside the batch (src/pages/Index.tsx:78), and the navigator stays mounted when new names arrive (src/pages/Index.tsx:85-92). So `currentIndex` survives a new extraction. | On names A, B, C press Next twice, so the index is 2. Extracting the one name X then shows "Certificate 3 of 1" with recipient `''`, and Next is enabled but does nothing. | A new list starts at its first entry. | not executed | BatchCertificates.StaleIndexAfterNewBatch | BatchCertificates.BatchNavigator.ReceiveNames |
