# OPR Digital: a Dafny model of the report-form core

The system is a single-page web application. A school's staff use it to write
One Page Reports (OPR) about school activities. A report is filled in on a form,
checked for mandatory fields and optionally completed by an AI helper. It is then
previewed as a one-page document or as a poster, downloaded as PDF or PNG, saved
to the browser's store, or submitted to a cloud endpoint. A dashboard summarises
the stored reports: counts per organising unit, the five most recent reports, a
1-5 quality rating with stars, and the most active unit.

The model has one Dafny module per core source file. It keeps each file's own
form:

- `Types` (types.dfy): the five units and their labels, the report record, and
  the statistics and AI-response records. A report's unit is either one of the
  five units or unset.
- `StorageService` (storage_service.dfy) covers the record-level logic:
  - the pure parts: the upsert rule, the per-unit counts, the five most recent
    reports, the comma split that strips the data-URI header from the PDF, and
    the placeholder-URL test;
  - the imperative parts, in class `ReportStore`, whose field `stored` is the
    browser store (`None` when nothing has been saved): `SaveReportLocal`,
    `SaveReport`, `UploadReportToCloud`, and `GetDashboardStats`, which counts
    with a loop.
- `Dashboard` (dashboard.dfy) covers:
  - the rating, both as the step-by-step method and as a specification function,
    with monotonicity and exact thresholds proved;
  - the star fill rule and the chart entries;
  - the most-active-unit reduction, where ties go to the later entry;
  - the status label and the unit badge.
- `OPRForm` (opr_form.dfy): the form as class `FormState` with the handlers that
  edit the report, upload and remove images, apply the AI result, set the date,
  and validate before preview. The AI helper is called only when the objective,
  activity and weakness fields are filled in.
- `AppController` (app.dfy) covers:
  - the application shell as class `App`: the view, the preview mode, the
    current report, the statistics and the busy flag;
  - the send flow, which captures the PDF in standard mode and then restores
    the mode;
  - the download file names, with JavaScript's `\s` whitespace class written
    out.
- `PosterPreview` (poster_preview.dfy) and `OPRPreview` (opr_preview.dfy): which
  images each rendering shows, the gallery filler tiles, the caption fallbacks
  for empty fields, and the empty-date guard.

External behaviour is passed in as parameters:

- the network outcome of the upload is a `bool`;
- the rasteriser's PDF or PNG is an `Option<string>`, with `None` when it failed;
- the AI result is an `Option<GenerateAIResponse>`; `None` stands for a call that throws, which the shipped service never does (see "## Left out");
- date parsing, the weekday name and locale date formatting are functions;
- fresh ids and the clock are `string` and `int` values.

`INITIAL_DATA` in App.tsx is a module-level constant, evaluated once when the
application loads. Every new report therefore carries the load-time `tarikh`
and `createdAt`; only its id is fresh.

## Model

| member | source | states |
|---|---|---|
| Types.UnitLabel | types.ts:1-7 | every unit has a non-empty display label |
| Types.UnitsEnumerated | types.ts:1-7 | there are exactly five units, `AllUnits` lists each once, and distinct units have distinct labels |
| Types.UnitText | types.ts:11 | a report's unit text is empty exactly when no unit is set, otherwise it is the unit's label |
| StorageService.FindIndex | services/storageService.ts:29 | `findIndex`: -1 iff no report has the id, otherwise the first index holding it |
| StorageService.Upsert | services/storageService.ts:27-38 | the saved report is always present afterwards, and the collection grows by at most one entry |
| StorageService.UpsertReplaces | services/storageService.ts:29-33 | a known id is replaced at its first index; the length and every other entry are kept |
| StorageService.UpsertPrepends | services/storageService.ts:34-35 | an unknown id is put in front, followed by the old entries in their order |
| StorageService.UpsertIds | services/storageService.ts:27-38 | the set of ids grows by exactly the saved id |
| StorageService.UpsertKeepsIdsUnique | services/storageService.ts:27-38 | unique ids stay unique, and the saved report is the only entry with its id |
| StorageService.FindIndexIs | services/storageService.ts:29 | the first index holding an id is what `findIndex` answers |
| StorageService.UpsertIdempotent | services/storageService.ts:29-36 | saving the same report twice leaves the same collection as saving it once |
| StorageService.UpsertPositionOfSaved | services/storageService.ts:29-35 | after a save the report is found at its old index, or at index 0 when it was new |
| StorageService.FindIndexSamePattern | services/storageService.ts:29 | `findIndex` depends only on which positions hold the id |
| StorageService.UpsertPositionOfOthers | services/storageService.ts:29-35 | any other id keeps its index after an in-place save, or moves down by one after a prepend |
| StorageService.CountUnit | services/storageService.ts:104-108 | a unit's count never exceeds the number of reports |
| StorageService.CountWithUnit | services/storageService.ts:105 | the number of reports with a unit never exceeds the number of reports |
| StorageService.SumByUnit | services/storageService.ts:94-100 | the total of the listed units' counts is at least each single count |
| StorageService.SumAllUnits | services/storageService.ts:94-100 | the sum over the five units is the five map entries added up |
| StorageService.UnitCountsSum | services/storageService.ts:94-108 | the five per-unit counts add up to the number of reports whose unit is set; reports without a unit are not counted |
| StorageService.Recent | services/storageService.ts:101 | `slice(0, 5)`: the first min(5, n) reports, in store order |
| StorageService.StatsOf | services/storageService.ts:90-111 | statistics of a collection list at most five recent reports and no unit count exceeds the total |
| StorageService.Split | services/storageService.ts:48 | `split` yields at least one part and no part contains the separator |
| StorageService.Join | services/storageService.ts:48 | the joined text starts with the first part and has at least one separator between each pair of parts |
| StorageService.SplitJoin | services/storageService.ts:48 | splitting a join of separator-free parts gives back the parts |
| StorageService.JoinSplit | services/storageService.ts:48 | joining the parts of a split with the separator gives back the input |
| StorageService.SplitWithoutSep | services/storageService.ts:48 | a string without the separator splits into itself alone |
| StorageService.SplitAfterHeader | services/storageService.ts:48 | a separator-free header followed by the separator splits off as the first part |
| StorageService.CleanPdfBase64 | services/storageService.ts:48 | the payload is either the whole input or a non-empty, comma-free segment |
| StorageService.CleanStripsHeader | services/storageService.ts:47-48 | for `header,body` the payload is exactly the body |
| StorageService.CleanSegment | services/storageService.ts:48 | with two or more commas the text between the first and second comma is sent; when that text is empty the whole input is sent |
| StorageService.CleanLastSegment | services/storageService.ts:48 | with exactly one comma the text after it is sent; when that text is empty the whole input is sent |
| StorageService.CleanWithoutHeader | services/storageService.ts:48 | an input without a comma is sent unchanged |
| StorageService.Contains | services/storageService.ts:41 | `includes`: a contained pattern is no longer than the text, and the empty pattern is always contained |
| StorageService.ContainsAt | services/storageService.ts:41 | a contained pattern occurs at some position of the text |
| StorageService.OccursAtContains | services/storageService.ts:41 | a pattern occurring at some position is contained, so `Contains` is exactly occurrence |
| StorageService.NotContainsFirstChar | services/storageService.ts:41 | a string missing the first character of a pattern does not contain the pattern |
| StorageService.ContainsHasFirstChar | services/storageService.ts:41 | helper of `IsPlaceholderUrl`: a contained non-empty pattern's first character occurs in the text |
| StorageService.IsPlaceholderUrl | services/storageService.ts:41 | an address counts as the placeholder only when it is empty or has a 'G', the first letter of "GANTIKAN" |
| StorageService.UploadAnswer | services/storageService.ts:40-83 | a completed POST always answers true, and with the configured address the answer is exactly the transport outcome |
| StorageService.StoredVersion | services/storageService.ts:43-80 | the stored copy differs from the given report at most in its status, and it becomes `Submitted` only after a successful transport to a real URL |
| StorageService.UrlHostHasNoG | services/storageService.ts:23 | helper of `ConfiguredUrlIsNotPlaceholder`: the script host part of the configured URL has no 'G' |
| StorageService.UrlDeploymentHasNoG | services/storageService.ts:23 | helper of `ConfiguredUrlIsNotPlaceholder`: the deployment id in the configured URL has no 'G' |
| StorageService.ConfiguredUrlHasNoG | services/storageService.ts:23 | helper of `ConfiguredUrlIsNotPlaceholder`: the whole configured URL has no 'G' |
| StorageService.NoGIsNotPlaceholder | services/storageService.ts:41 | a non-empty URL without a 'G' cannot contain "GANTIKAN", so it is not the placeholder |
| StorageService.ConfiguredUrlIsNotPlaceholder | services/storageService.ts:23-41 | the configured script URL is neither empty nor contains "GANTIKAN", so the upload path is taken |
| StorageService.ReportStore.constructor | services/storageService.ts:25 | the store starts with the given stored value and script URL |
| StorageService.ReportStore.GetStoredReports | services/storageService.ts:85-88 | an empty store reads as the empty sequence, otherwise as its contents |
| StorageService.ReportStore.SaveReportLocal | services/storageService.ts:27-38 | the store becomes the upsert of the report into the previous contents |
| StorageService.ReportStore.SaveReport | services/storageService.ts:113-116 | always answers true and upserts the report |
| StorageService.ReportStore.UploadReportToCloud | services/storageService.ts:40-83 | placeholder URL: the report is stored unchanged, nothing is sent, the answer is true. Real URL: the payload is the report with the cleaned PDF. On transport success the report is stored as `Submitted` and the answer is true; on failure it is stored unchanged and the answer is false |
| StorageService.ReportStore.GetDashboardStats | services/storageService.ts:90-111 | the total is the number of reports, recent is the first five, every unit is a key with its exact count, and the counts sum to the reports with a unit |
| Dashboard.CountMet | components/Dashboard.tsx:42-52 | at most as many criteria hold as are listed |
| Dashboard.Rating | components/Dashboard.tsx:39-55 | the rating lies between 1 and 5 |
| Dashboard.RatingExpanded | components/Dashboard.tsx:43-52 | the rating is 1 plus one point for each of: submitted, at least 4 images, reflection over 50 characters, plan over 50 characters |
| Dashboard.CalculateRating | components/Dashboard.tsx:39-55 | the step-by-step score equals the rating and lies in 1..5 |
| Dashboard.CountMetMonotone | components/Dashboard.tsx:42-52 | meeting more criteria never counts fewer |
| Dashboard.RatingMonotone | components/Dashboard.tsx:42-54 | making criteria true never lowers the rating |
| Dashboard.RatingRaise | components/Dashboard.tsx:42-54 | meeting exactly one more criterion raises the rating by exactly one |
| Dashboard.ImageThreshold | components/Dashboard.tsx:46 | 3 images do not score and the fourth does |
| Dashboard.ReflectionThreshold | components/Dashboard.tsx:49 | a 50-character reflection does not score and one more character does |
| Dashboard.PlanThreshold | components/Dashboard.tsx:52 | a 50-character plan does not score and one more character does |
| Dashboard.SubmittingRaisesRating | components/Dashboard.tsx:43 | submitting a draft raises its rating by one |
| Dashboard.Stars | components/Dashboard.tsx:57-68 | exactly five stars are drawn and star i is filled iff i < score |
| Dashboard.FilledPrefix | components/Dashboard.tsx:60-63 | the first n stars hold min(n, score) filled ones |
| Dashboard.FilledStarsMatchRating | components/Dashboard.tsx:60-63 | a report shows as many filled stars as its rating |
| Dashboard.Entries | components/Dashboard.tsx:15-18 | one chart entry per listed unit |
| Dashboard.ChartData | components/Dashboard.tsx:15-18 | `chartData` has five entries; entry i is unit i's label with its count |
| Dashboard.EntriesAt | components/Dashboard.tsx:15-18 | one chart entry per key, in key order, with the unit's label and count; the entries sum to the counts |
| Dashboard.ChartMatchesStats | components/Dashboard.tsx:15-18 | the chart has five entries, one per unit in order, totalling the counted reports |
| Dashboard.MostActiveIndex | components/Dashboard.tsx:90 | the chosen entry has a maximal count and every later entry is strictly smaller, so ties go to the later entry |
| Dashboard.MostActiveName | components/Dashboard.tsx:90 | '-' for an empty chart; otherwise the name of an entry whose count is maximal |
| Dashboard.TieNamesLast | components/Dashboard.tsx:90 | with all counts equal the last entry is named |
| Dashboard.MostActiveIsAUnit | components/Dashboard.tsx:90 | the most active name is always one of the five unit labels |
| Dashboard.StatusLabel | components/Dashboard.tsx:176 | 'HANTAR' iff submitted, 'DRAFT' iff draft |
| Dashboard.UnitBadge | components/Dashboard.tsx:172 | the badge is the unit's label, or 'UMUM' when no unit is set |
| OPRForm.ApplyEdit | components/OPRForm.tsx:68-71 | an edit changes only the named field; id, date, images, status and timestamp are untouched |
| OPRForm.ReportExt | components/OPRForm.tsx:68-71 | reports agreeing on the unit, every text field and the fixed fields are equal |
| OPRForm.EditUndo | components/OPRForm.tsx:68-71 | writing back a field's old value undoes an edit |
| OPRForm.WithoutIndex | components/OPRForm.tsx:85 | the filter on the index removes one element for an in-range index and none otherwise |
| OPRForm.WithoutIndexSpec | components/OPRForm.tsx:82-87 | removing an in-range index drops exactly that element and keeps the others in order; an out-of-range index changes nothing |
| OPRForm.RemoveUndoesUpload | components/OPRForm.tsx:74-87 | removing the last uploaded image restores the previous list |
| OPRForm.WithAIResult | components/OPRForm.tsx:97-101 | the AI result overwrites exactly the plan and the reflection |
| OPRForm.AIResultIsTwoEdits | components/OPRForm.tsx:97-101 | applying the AI result is the same as two field edits |
| OPRForm.AIReadyIgnoresOptional | components/OPRForm.tsx:90 | the readiness test `AIReady` looks only at aktiviti, kelemahan and objektif: the optional strength and the two drafted fields never change it |
| OPRForm.MissingFrom | components/OPRForm.tsx:110-114 | the labels listed from field k on are at most 4 - k |
| OPRForm.MissingFields | components/OPRForm.tsx:110-114 | at most the four mandatory labels are listed |
| OPRForm.LabelRanks | components/OPRForm.tsx:110-114 | the four mandatory labels have ranks 0 to 3 in their fixed order |
| OPRForm.MissingFromSound | components/OPRForm.tsx:110-114 | each listed label names a blank mandatory field |
| OPRForm.MissingFromComplete | components/OPRForm.tsx:110-114 | each blank mandatory field is listed |
| OPRForm.MissingFromOrdered | components/OPRForm.tsx:110-114 | the listed labels follow the fixed order |
| OPRForm.MissingFieldsExact | components/OPRForm.tsx:110-114 | a label is listed iff its field is blank, only mandatory labels appear, and they appear in the order Unit, Tajuk Program, Tarikh, Disediakan Oleh |
| OPRForm.MissingFieldsEmptyIff | components/OPRForm.tsx:110-116 | nothing is missing iff the unit, title, date and preparer are all filled in |
| OPRForm.AIResultKeepsMissing | components/OPRForm.tsx:97-114 | an AI result never changes which mandatory fields are missing |
| OPRForm.DayName | components/OPRForm.tsx:123-137 | a weekday is shown only for a non-empty date that parses, and then it is that date's weekday name |
| OPRForm.FormState.constructor | components/OPRForm.tsx:64-66 | the form starts from the given report and is not generating |
| OPRForm.FormState.HandleChange | components/OPRForm.tsx:68-71 | the form data becomes the edited report |
| OPRForm.FormState.HandleImageUpload | components/OPRForm.tsx:74-80 | no file list changes nothing; otherwise the new references are appended, the old list is a prefix, and the length grows by the file count |
| OPRForm.FormState.RemoveImage | components/OPRForm.tsx:82-87 | an in-range index drops that image only; an out-of-range index leaves the form unchanged |
| OPRForm.FormState.HandleGenerateAI | components/OPRForm.tsx:89-107 | the AI helper is called, with aktiviti, objektif, kekuatan and kelemahan, iff aktiviti, kelemahan and objektif are filled. A result overwrites the two AI fields; this includes the service's fallback texts after a Gemini failure. Only a call that throws (`None`) changes nothing. The generating flag is clear afterwards |
| OPRForm.FormState.HandlePreviewClick | components/OPRForm.tsx:109-121 | the missing list is computed from the form, and the preview is invoked with the form data iff that list is empty |
| OPRForm.FormState.HandleDateChange | components/OPRForm.tsx:123-137 | the date is always set to the input; the weekday is '' when the input is empty or unparseable, otherwise the weekday name |
| AppController.IsBlankDraft | App.tsx:12-30 | a blank draft rates 1 and misses unit, title and preparer, and also the date when that is empty |
| AppController.InitialData | App.tsx:12-30 | the template report is a blank draft with no id, the load-time date and the load-time timestamp |
| AppController.IsWhitespace | App.tsx:107 | the `\s` class: on ASCII it is exactly space, tab, line feed, carriage return, vertical tab and form feed; '_' is never whitespace |
| AppController.StripWhitespace | App.tsx:107 | `replace(/\s/g, '')` leaves no whitespace and never lengthens the text |
| AppController.UnderscoreWhitespace | App.tsx:107 | `replace(/\s/g, '_')` keeps the length and turns exactly the whitespace characters into underscores |
| AppController.StripIdentity | App.tsx:107 | stripping a whitespace-free text changes nothing |
| AppController.StripAppend | App.tsx:107 | stripping distributes over concatenation |
| AppController.StripIdempotent | App.tsx:107 | stripping twice is stripping once |
| AppController.StripLeadingWord | App.tsx:107 | a whitespace-free leading word is kept as it is |
| AppController.StripLeadingSpace | App.tsx:107 | helper of `HemLabelStripped`: a leading space is dropped |
| AppController.LettersOnly | App.tsx:107 | helper of `HemLabelStripped`: a text made of ASCII letters has no whitespace |
| AppController.StripThreeWords | App.tsx:107 | three whitespace-free words separated by single spaces are joined together |
| AppController.HemLabelWords | types.ts:5 | the 'Hal Ehwal Murid' label is three whitespace-free words separated by single spaces |
| AppController.HemLabelStripped | App.tsx:107 | the 'Hal Ehwal Murid' unit appears as 'HalEhwalMurid' in the PDF name |
| AppController.OtherLabelsKept | App.tsx:107 | the other four unit labels appear unchanged in the PDF name |
| AppController.UnitPartOfFilename | App.tsx:107 | the unit part of the PDF name is the label with spaces removed, which matters only for 'Hal Ehwal Murid' |
| AppController.NoWhitespaceAppend | App.tsx:107-108 | joining two whitespace-free texts gives a whitespace-free text |
| AppController.UnderscoredHasNoWhitespace | App.tsx:107 | a title with its whitespace turned into underscores has no whitespace |
| AppController.PdfFilename | App.tsx:107-108 | the PDF name starts with 'OPR_' and ends with '.pdf' |
| AppController.PosterFilename | App.tsx:134 | the poster name starts with 'Poster_', ends with '.png' and is 11 characters longer than the title |
| AppController.PdfFilenameNoWhitespace | App.tsx:107-108 | with a whitespace-free date the PDF name has no whitespace; its length is prefix, unit, title, date and extension together |
| AppController.PosterFilenameNoWhitespace | App.tsx:134 | the PNG name never has whitespace and is 'Poster_' + title length + '.png' long |
| AppController.Truthy | App.tsx:174 | a PDF is truthy exactly when it was produced and its cleaned payload is non-empty |
| AppController.App.constructor | App.tsx:32-37 | the first render is the dashboard in standard mode with the template report and statistics of the store |
| AppController.App.ShowDashboard | App.tsx:43-48 | the view becomes the dashboard; statistics are recomputed from the store only when the view changed |
| AppController.App.HandleCreateNew | App.tsx:56-60 | the current report becomes a blank draft with the fresh id; the mode becomes standard and the view becomes the form |
| AppController.App.HandlePreview | App.tsx:62-65 | the preview shows the form's data and the mode is kept |
| AppController.App.HandleViewReport | App.tsx:67-72 | opening a stored report shows it in standard mode |
| AppController.App.SetPreviewMode | App.tsx:266-279 | the mode buttons set the mode and nothing else |
| AppController.App.BackToEdit | App.tsx:283 | 'Edit Semula' returns to the form with the same data and mode |
| AppController.App.HandleSaveDraft | App.tsx:147-150 | the form's data is upserted into the store |
| AppController.App.HandleSaveOnly | App.tsx:152-157 | the current report is upserted; view and mode are unchanged and the busy flag is clear afterwards |
| AppController.App.HandleDownloadPDF | App.tsx:100-118 | a download is offered, under the PDF name, iff a non-empty PDF was produced; the busy flag is clear afterwards |
| AppController.App.HandleDownloadPoster | App.tsx:120-145 | a download is offered, under the poster name, iff the poster is mounted and rendering succeeded; the busy flag is clear afterwards |
| AppController.App.HandleSendReport | App.tsx:159-191 | the PDF is captured in standard mode and uploaded only when truthy, and nothing is posted when the script URL is the placeholder; the view moves to the dashboard only when the upload answered true; the mode before the send is restored and the busy flag cleared |
| PosterPreview.MainImage | components/PosterPreview.tsx:10 | the main image is the first reference when present and non-empty, otherwise the placeholder URL |
| PosterPreview.SubImages | components/PosterPreview.tsx:11 | the sub-images are images 2 to 4 in order, so at most three |
| PosterPreview.Photos | components/PosterPreview.tsx:220-224 | one photo tile per sub-image, in order |
| PosterPreview.Fillers | components/PosterPreview.tsx:226-230 | n filler tiles |
| PosterPreview.Gallery | components/PosterPreview.tsx:211-233 | the strip exists iff there are at least two images, and then it has three tiles |
| PosterPreview.GalleryLayout | components/PosterPreview.tsx:211-233 | the strip is shown iff there are at least two images; it then has exactly three tiles, tile i being image i+2 when it exists and a filler otherwise |
| PosterPreview.PosterIgnoresLaterImages | components/PosterPreview.tsx:10-11 | images after the fourth never change the poster |
| PosterPreview.Captions | components/PosterPreview.tsx:73-248 | each caption is its field when filled and its fixed fallback otherwise; the plan and reflection are quoted; date and time are shown as they are; no other caption is ever blank |
| OPRPreview.ImageSection | components/OPRPreview.tsx:111-124 | the notice 'Tiada gambar dilampirkan' appears iff there are no images; otherwise the first min(4, n) images appear, in order |
| OPRPreview.GridIgnoresLaterImages | components/OPRPreview.tsx:116 | images after the fourth never change the grid |
| OPRPreview.FormatDate | components/OPRPreview.tsx:9-13 | the empty date stays empty; any other date goes to the locale formatter |
| OPRPreview.Captions | components/OPRPreview.tsx:39-132 | empty narrative fields show '-', an empty unit 'UNIT', an empty preparer 'NAMA GURU' and an empty role 'JAWATAN'; title, weekday and time are shown as they are; the report date and the print date go through the formatter |

## Left out

- Rendering: the JSX layout, CSS classes (including the upper-casing they apply), icons, the bar chart and the toast. These are presentation, and only the values they display are modelled.
- Rasterisation: html2canvas and jsPDF (App.tsx:74-98, 120-137). These are foreign libraries, so their output is a parameter.
- Network: the `fetch` POST and the `alert` dialogs (services/storageService.ts:42, 58-81). The transport outcome is a `bool` parameter.
- The Google Apps Script server code commented out in services/storageService.ts is not part of this model; it runs on another system.
- services/geminiService.ts is not part of this model. The AI result is an arbitrary pair of strings, which covers the fixed fallback texts the service returns after catching its own errors (services/geminiService.ts:51-57). A failed Gemini call therefore reaches the form as a result and overwrites both drafted fields. The `None` branch of components/OPRForm.tsx:102-103, which leaves the form unchanged, is kept in the model although the shipped service never takes it.
- Locale behaviour: `new Date(...)` parsing, `Intl.DateTimeFormat` and `toLocaleDateString` are function parameters. `new Date().toISOString()` is a string parameter.
- Fresh values: `Date.now()` ids and `URL.createObjectURL` handles are opaque strings supplied by the caller. Their uniqueness is not modelled.
- Timing: the 300 ms render wait (App.tsx:169) and the toast timer (App.tsx:53).
- Storage serialisation: the JSON encoding and `localStorage` are left out. The store is an in-memory `Option<seq<Report>>`, and writing to it cannot fail.
- AppController.App.HandleSaveOnly: its busy flag is always clear afterwards only because storage writes cannot fail in the model. App.tsx:152-157 has no `finally`, so a throwing `localStorage.setItem` would leave the flag set.
- Corrupt-store recovery is left out, because the code has none: a corrupt stored value makes `JSON.parse` throw (services/storageService.ts:87).
- Stored reports whose unit is a string other than '' or the five labels cannot be represented. The form only produces those six values, so the `!== undefined` guard (services/storageService.ts:105) always holds in the model.
- Concurrency: the asynchronous steps of each handler are modelled as one atomic step. Interleaved clicks during an `await` are not modelled; the busy flag only disables the buttons.
- Text length: JavaScript measures length in UTF-16 code units and Dafny in characters. The rating thresholds treat each character as one unit, so the two agree except for characters outside the Basic Multilingual Plane.
