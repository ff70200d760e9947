# Resume analyzer: a Dafny model of its review pipeline

The application takes a PDF resume and a job description. It stores both, asks an AI model for an ATS-style review and shows the review. This project models the three parts of it that hold logic:

- **The upload page** (`handleAnalyze`, `handleSubmit`).
  - A run is a fixed sequence of stages with early returns: upload the resume, convert it to an image, upload the image, store a record with empty feedback under `resume:<uuid>`, ask the AI, parse its reply, store the record again with the feedback, and navigate to `/resume/<uuid>`.
  - A run is modelled as the log of what it does that can be seen: status texts, key-value writes and navigations.
  - `Upload.AnalyzeRun` is the reference definition of that log. `Upload.UploadPage.HandleAnalyze` follows the code step by step and is proved to produce exactly that log and the store it implies.
- **The review page** (`loadResume`, the display conditions, the ATS defaults, the profile initials, the sign-in redirect).
  - `Resume.Load` defines which of `resumeUrl`, `imageUrl` and `feedback` a load sets. `Resume.ResumePage.LoadResume` follows the code's early-return chain and is proved to match it.
  - End-to-end lemmas connect a finished upload run to what the review page then shows.
- **The details panel.**
  - The score badge bands.
  - The per-tip "Improve" request (`handleSuggest`). It flattens the AI reply into one text and decides the outcome with a strict parse and then a trailing-brace fallback. It records the outcome per tip index and guards requests with the category's own `loadingIndex`.
  - `Details.Interpret` and `Details.SuggestOutcome` define the outcome as a function of the reply. The class `Details.CategoryContent` holds the `suggestions` map and `loadingIndex` and updates them as the code does.

The JavaScript library behaviour the code relies on is modelled in its own modules:

- `JsValue`: parsed JSON values, truthiness, property lookup and `||` defaults.
- `JsString`: `trim` with the ECMAScript white-space set, `join`, `slice(0, n)`, ASCII `toUpperCase`, `split(/\s+/)`.

Every collaborator is a parameter of the operation that uses it: the storage gateway, the key-value store, the PDF converter, the AI gateway, the id generator, `JSON.parse`, `JSON.stringify` and `URL.createObjectURL`. `JSON.parse` is a function returning `None` where it throws. A run of `handleAnalyze` takes these in an `Env` value. The key-value store is a `map<string, Record>`.

The model follows the code as written, including these behaviours:

- A failed conversion writes no record; the run writes nothing before both uploads succeed.
- The conversion failure status is the fixed text "Error: Failed to convert PDF file to image...". The converter's own error message is only logged.
- In `handleAnalyze`, a reply whose text cannot be extracted or parsed (upload.tsx:72-74) throws out of the handler uncaught. No status is set, no second write happens, and the page stays in the processing state. This is the `Crashed` exit.
- `isProcessing` is set at the start of a run and never cleared, so the form does not come back after a failed run.
- `prepareInstructions` receives only the job title and job description, not the company name.
- The stored record's `resumePath` and `imagePath` hold the whole storage items returned by the upload, not path strings. The review page passes them to `fs.read` as they are.
- Each of the four category cards (Details.tsx:297-333) is its own `CategoryContent` with its own `loadingIndex`. Only one request at a time is pending within a category; requests in different categories can overlap. `Details.CategoryContent` models one card.
- The review page renders the details panel without a resume path (resume.tsx:136). So the leading file part of the "Improve" prompt (Details.tsx:92) is never sent from that page; `Details.SuggestPrompt` models both cases.
- In `handleSuggest`, a missing or `null` AI reply is not an error. It becomes the empty text and so the placeholder "No suggestion returned" (or a structured outcome, if the parser accepts the empty text).

## Model

| member | source | states |
|---|---|---|
| `Details.BadgeBand` | app/components/Details.tsx:17-24 | the badge colour of a score; `Details.IntegerScoreBands` and `Details.BandMonotone` state its bands |
| `Details.BadgeIcon` | app/components/Details.tsx:20 | the badge icon of a score; `Details.IconFollowsBand` ties it to the band |
| `Details.IntegerScoreBands` | app/components/Details.tsx:17-24 | whole-number scores of 70 and above are green, 40..69 yellow, 39 and below red (each an if-and-only-if) |
| `Details.IconFollowsBand` | app/components/Details.tsx:20 | the check icon is shown exactly on green badges; every other score shows the warning icon |
| `Details.BandMonotone` | app/components/Details.tsx:17 | a higher score never gets a worse band |
| `Details.SuggestPrompt` | app/components/Details.tsx:91-95 | the message has one or two parts; the last is the tip text part; there is a leading file part, naming the resume path, exactly when the path is set and non-empty |
| `Details.KeptParts` | app/components/Details.tsx:131-137 | the parts kept from an array reply are all non-empty and no more than its elements |
| `Details.KeptPartsSingle` | app/components/Details.tsx:131-137 | one element is kept as its text exactly when that text is non-empty, and dropped otherwise |
| `Details.KeptPartsAppend` | app/components/Details.tsx:131-137 | the parts are kept element by element: the parts of two arrays one after the other are the parts of each, in order |
| `Details.PartText` | app/components/Details.tsx:132-136 | the text of one reply part: a string part, or the string `text` of a `type: "text"` part, else ""; `Details.KeptPartsSingle` and `Details.ArrayWithoutTextIsEmpty` state what it keeps |
| `Details.ReplyText` | app/components/Details.tsx:125-141 | the text a reply flattens to; `Details.ReplyTextByKind`, `Details.ArrayReplyTrimmed`, `Details.SingleTextPart` and `Details.ArrayWithoutTextIsEmpty` state it for each kind of reply |
| `Details.ReplyTextByKind` | app/components/Details.tsx:125-141 | a string reply is used as is, a missing or null reply gives "", any other non-array value is serialized |
| `Details.ArrayReplyTrimmed` | app/components/Details.tsx:130-138 | an array reply flattens to a trimmed text, which is empty exactly when the joined parts are all white space |
| `Details.ArrayWithoutTextIsEmpty` | app/components/Details.tsx:131-138 | an array with no string and no text part keeps no parts and flattens to "" |
| `Details.SingleTextPart` | app/components/Details.tsx:134-138 | a reply made of one `type: "text"` part gives that part's text, trimmed |
| `Details.IndexOf` | app/components/Details.tsx:152 | the position found holds the character and none before it does; no position is found only when the character is absent |
| `Details.TrailingBlock` | app/components/Details.tsx:152 | the regular expression matches exactly when some position starts a match; the match is a suffix that starts at the leftmost such position |
| `Details.TrailingBlockExists` | app/components/Details.tsx:152 | there is a match exactly when the text ends in `}` and a `{` occurs before that last character |
| `Details.TrailingBlockAfterPreamble` | app/components/Details.tsx:152-155 | after brace-free prose, the match is exactly the trailing object text |
| `Details.Interpret` | app/components/Details.tsx:144-166 | a message outcome is the text or the placeholder for the empty text; a structured outcome has the suggestion shape and is what the whole text, or else the trailing block of a text that does not parse whole, parses to |
| `Details.HasSuggestionShape` | app/components/Details.tsx:146 | the shape check that both `suggestedEdits` and `sampleLines` are arrays; `Details.Interpret`, `Details.StrictParseAccepted`, `Details.WrongShapeNotRetried` and `Details.StructuredExactlyFromAttempts` state where it decides the outcome |
| `Details.Fallback` | app/components/Details.tsx:149 | `text || "No suggestion returned"`; `Details.MessageIsTextOrPlaceholder` states that it is never empty |
| `Details.StrictParseAccepted` | app/components/Details.tsx:144-147 | a text that parses whole to the suggestion shape is recorded as that parsed value |
| `Details.WrongShapeNotRetried` | app/components/Details.tsx:144-150 | a text that parses whole to the wrong shape is recorded as text; the trailing block is not tried |
| `Details.StructuredExactlyFromAttempts` | app/components/Details.tsx:144-166 | the outcome is a given structured value exactly when the whole text parses to it with the right shape, or the whole text does not parse and the trailing block parses to it with the right shape |
| `Details.MessageIsTextOrPlaceholder` | app/components/Details.tsx:149-165 | every message outcome is non-empty: the text itself, or "No suggestion returned" for the empty text |
| `Details.NoBraceStaysText` | app/components/Details.tsx:151-166 | with a parser that makes objects only from text holding a `{`, a text without `{` is never structured |
| `Details.PreambleThenObject` | app/components/Details.tsx:151-157 | prose followed by a well-shaped object is recorded as the object when the whole text does not parse |
| `Details.SettledOutcomeNeverEmpty` | app/components/Details.tsx:123-170 | no settled outcome of a request is the empty message, and every settled outcome is shown in a panel |
| `Details.SuggestOutcome` | app/components/Details.tsx:123-170 | the outcome recorded for a reply or a thrown error; `Details.SettledOutcomeNeverEmpty`, `Details.GatewayErrorRecorded` and `Details.MissingReplyGivesPlaceholder` state it |
| `Details.PanelOf` | app/components/Details.tsx:218-219 | the panel an outcome is shown in: a text panel for a non-empty string, a suggestion panel for a truthy value, none otherwise; `Details.SettledOutcomeNeverEmpty` shows every settled outcome gets one |
| `Details.ErrorText` | app/components/Details.tsx:169 | the message of a thrown error, or "Failed to generate suggestion" for a thrown non-error; `Details.GatewayErrorRecorded` states how it is recorded |
| `Details.GatewayErrorRecorded` | app/components/Details.tsx:168-170 | a thrown error is recorded as "Error: " followed by its message; a thrown non-error as "Error: Failed to generate suggestion" |
| `Details.MissingReplyGivesPlaceholder` | app/components/Details.tsx:125-165 | a missing or null reply is recorded as "No suggestion returned" when the empty text does not parse |
| `Details.CategoryContent.constructor` | app/components/Details.tsx:62-63 | no outcomes recorded and no request pending |
| `Details.CategoryContent.OutcomePanel` | app/components/Details.tsx:218-219 | the panel under a tip: none while its index has no entry, otherwise `PanelOf` of the entry; `Details.CategoryContent.CompleteSuggest` ensures a panel after every reply |
| `Details.CategoryContent.ActionControl` | app/components/Details.tsx:203-215 | good tips have no control; a tip to improve shows "Generating..." exactly while its own request is pending, and an enabled button exactly while no request is pending |
| `Details.CategoryContent.BeginSuggest` | app/components/Details.tsx:69-75 | without the chat gateway only this tip's entry becomes "AI not available" and `loadingIndex` is unchanged; otherwise this tip's entry becomes "Generating..." and `loadingIndex` becomes this index |
| `Details.CategoryContent.RecordInterpretation` | app/components/Details.tsx:144-167 | only this tip's entry changes, to `Interpret` of the text; `loadingIndex` is unchanged |
| `Details.CategoryContent.CompleteSuggest` | app/components/Details.tsx:123-173 | only this tip's entry changes, to `SuggestOutcome` of the reply; `loadingIndex` is cleared on every path; the card then shows a panel |
| `Details.CategoryContent.HandleSuggest` | app/components/Details.tsx:65-174 | a whole request: without the gateway only the "AI not available" entry; with it only this tip's entry changes, to the outcome of the reply to `SuggestPrompt` for this tip, and `loadingIndex` ends cleared |
| `Details.CategoryContent.ClickImprove` | app/components/Details.tsx:203-210 | while a request is pending a click changes nothing and starts nothing; a click on an enabled button starts a request for this tip |
| `JsValue.OrElse` | app/routes/resume.tsx:135 | the `or` default is the value when it is present and truthy, and the default otherwise |
| `JsString.TrimStart` | app/components/Details.tsx:138 | the result is the suffix left after a leading white-space run, and does not start with white space |
| `JsString.TrimEnd` | app/components/Details.tsx:138 | the result is the prefix left before a trailing white-space run, and does not end with white space |
| `JsString.Trim` | app/components/Details.tsx:138 | the result is a slice of the input with white space on both cut-off sides, and neither of its ends is white space |
| `JsString.TrimUnchanged` | app/components/Details.tsx:138 | trimming leaves a text unchanged exactly when neither end is white space |
| `JsString.TrimIdempotent` | app/components/Details.tsx:138 | trimming twice is trimming once |
| `JsString.TrimEmpty` | app/components/Details.tsx:138 | trimming gives "" exactly when the text is all white space |
| `JsString.Join` | app/components/Details.tsx:138 | `join(sep)`; `JsString.JoinAppend` states that joins of two non-empty lists meet at one separator |
| `JsString.JoinAppend` | app/components/Details.tsx:138 | joining two non-empty lists one after the other is the join of each with one separator between |
| `JsString.Take` | app/routes/resume.tsx:35 | `slice(0, n)` is the prefix of length `min(n, length)` |
| `JsString.Upper` | app/routes/resume.tsx:36 | same length, each character upper-cased, no lower-case ASCII letter left |
| `JsString.WordLength` | app/routes/resume.tsx:32 | the leading run has no white space and ends at white space or at the end |
| `JsString.GapLength` | app/routes/resume.tsx:32 | the leading run is all white space and ends at a non-white-space character or at the end |
| `JsString.SplitWhiteSpace` | app/routes/resume.tsx:32 | the split has at least one piece and no piece contains white space |
| `JsString.FirstChars` | app/routes/resume.tsx:33-34 | `map((s) => s[0]).join("")`, an empty piece contributing nothing; `JsString.FirstCharsOfSplit` states what it gives on a split username |
| `JsString.FirstCharsOfSplit` | app/routes/resume.tsx:32-34 | the first characters of the split pieces, empty pieces contributing nothing, are exactly the characters that start a word |
| `JsString.WordStartsAreWordChars` | app/routes/resume.tsx:32-34 | word starts are no more than the characters and contain no white space |
| `Upload.FeedbackText` | app/routes/upload.tsx:72 | the text of the AI reply, `None` where taking it throws; `Upload.FeedbackTextByKind` states it per kind of reply |
| `Upload.FeedbackTextByKind` | app/routes/upload.tsx:72 | a string reply is its own text; a non-empty array reply gives a text exactly when its first part has a string `text`, and then that text; any other reply, and an empty array, throws |
| `Upload.UploadStages` | app/routes/upload.tsx:22-47 | the first three stages of a run as a log and an outcome; `Upload.UploadStagesEffects` states them |
| `Upload.AnalysisStages` | app/routes/upload.tsx:49-80 | the rest of a run as a log and an exit; `Upload.AnalysisStagesEffects`, the three per-exit lemmas and `Upload.AnalysisStore` state them |
| `Upload.AnalyzeRun` | app/routes/upload.tsx:21-81 | the reference log and exit of a whole run: the upload stages, then the analysis stages when they finish; `Upload.RunEffects`, `Upload.ExitIsFirstFailingStage` and the lemmas below state it |
| `Upload.StoppedRun` | app/routes/upload.tsx:22-47 | a run that stops in the upload stages is exactly those stages and writes nothing |
| `Upload.ContinuedRun` | app/routes/upload.tsx:21-81 | a run whose uploads succeed is the upload stages followed by the analysis stages, and its writes are exactly theirs |
| `Upload.UploadStagesEffects` | app/routes/upload.tsx:23-47 | the upload stages finish exactly when the resume uploads, converts and its image uploads; they write nothing and show the progress texts of the stages reached, then the failure text |
| `Upload.AnalysisStagesEffects` | app/routes/upload.tsx:49-80 | the rest of the run writes the empty-feedback record first; it fails exactly when the AI returns nothing and redirects exactly when the reply parses, and only then writes again and navigates |
| `Upload.FailedAnalysisEffects` | app/routes/upload.tsx:49-69 | when the AI returns nothing the run ends `AnalysisFailed` after "Preparing", "Analyzing" and the failure text, with the one empty-feedback write and no navigation |
| `Upload.CrashedAnalysisEffects` | app/routes/upload.tsx:49-74 | when the reply's text cannot be taken or parsed the run ends `Crashed` after "Preparing" and "Analyzing", with the one empty-feedback write and no navigation |
| `Upload.CompletedAnalysisEffects` | app/routes/upload.tsx:49-80 | when the reply parses the run ends `Redirected` after the last three progress texts, with the empty-feedback write, the write that adds the parsed feedback, and one navigation to `/resume/<id>` |
| `Upload.AnalysisStore` | app/routes/upload.tsx:51-75 | after the analysis stages the store holds the empty-feedback record under `resume:<id>`, replaced by the record with the parsed feedback exactly when the reply parses; no other key changes |
| `Upload.RunEffects` | app/routes/upload.tsx:21-81 | the statuses, writes and navigations of a whole run, for each way it can end |
| `Upload.RunStatuses` | app/routes/upload.tsx:22-77 | the status texts of a run are the progress texts of the stages reached, then the failing stage's text |
| `Upload.RunWrites` | app/routes/upload.tsx:26-80 | a run writes nothing exactly when it stops before the analysis; otherwise it writes the empty-feedback record and, only when redirecting, the record with the parsed feedback, and only then navigates |
| `Upload.AnalyzedRunEffects` | app/routes/upload.tsx:21-81 | a run whose uploads succeed ends as its analysis stages do, shows the three upload texts before theirs, and has exactly their writes and navigations |
| `Upload.ExitIsFirstFailingStage` | app/routes/upload.tsx:24-74 | the run ends at the first stage that fails (each exit an if-and-only-if on the collaborators' results) |
| `Upload.StatusesInStageOrder` | app/routes/upload.tsx:23-77 | the status texts are the progress texts of the stages reached, in order, then the failing stage's text; a completed run shows exactly the six progress texts |
| `Upload.NoRecordBeforeUploads` | app/routes/upload.tsx:26-62 | nothing is written exactly when the run stops at the resume upload, the conversion or the image upload |
| `Upload.InitialRecord` | app/routes/upload.tsx:51-60 | the record stored first; `Upload.FirstWriteIsEmptyRecord` states its fields and `Upload.SecondWriteOnlyAddsFeedback` that the second write changes only its feedback |
| `Upload.FirstWriteIsEmptyRecord` | app/routes/upload.tsx:51-62 | the first write stores the id, both storage items, the three form fields and empty feedback under `resume:<id>` |
| `Upload.FailedAnalysisKeepsEmptyRecord` | app/routes/upload.tsx:62-74 | when the AI or the parse fails there is exactly one write, with empty feedback, and no navigation |
| `Upload.SecondWriteOnlyAddsFeedback` | app/routes/upload.tsx:62-75 | at most two writes; a second happens exactly when the reply parses, under the same key, with the same record except for the parsed feedback |
| `Upload.NavigationAfterSecondWrite` | app/routes/upload.tsx:75-80 | `/resume/<id>` is navigated to, once, exactly when two writes happened, as the last event and after every write |
| `Upload.CompletedRunEndsWithReview` | app/routes/upload.tsx:80 | the last event of a completed run is the navigation to `/resume/<id>` |
| `Upload.CompletedRunStoresFeedback` | app/routes/upload.tsx:62-75 | after a completed run the store holds the record for the id with the parsed feedback |
| `Upload.FailedRunStoresEmptyFeedback` | app/routes/upload.tsx:62-74 | after a failed analysis the store holds the record for the id with empty feedback |
| `Upload.UploadPage.constructor` | app/routes/upload.tsx:11-13 | not processing, empty status, no file, nothing logged |
| `Upload.UploadPage.FormShown` | app/routes/upload.tsx:109-118 | the form is rendered exactly while no run is in progress; `Upload.UploadPage.HandleAnalyze` and `Upload.UploadPage.HandleSubmit` ensure it stays hidden after a run |
| `Upload.UploadPage.HandleFileSelect` | app/routes/upload.tsx:17-19 | only the selected file changes |
| `Upload.UploadPage.UploadFiles` | app/routes/upload.tsx:22-47 | logs exactly the events of `UploadStages`, returns its outcome, leaves the store alone and shows the last status set |
| `Upload.UploadPage.StoreAndAnalyze` | app/routes/upload.tsx:49-80 | logs exactly the events of `AnalysisStages`, applies exactly its writes to the store and shows its last status |
| `Upload.UploadPage.StoreInitialRecord` | app/routes/upload.tsx:49-64 | logs "Preparing", the write of the empty-feedback record and "Analyzing"; only that record's key changes in the store |
| `Upload.UploadPage.StoreFeedback` | app/routes/upload.tsx:75-80 | logs the write of the record with feedback, "Analysis completed" and the navigation; only that record's key changes in the store |
| `Upload.UploadPage.HandleAnalyze` | app/routes/upload.tsx:21-81 | logs exactly the run's events, leaves the store as the run's writes make it, ends on the run's exit with its status shown, and stays processing, so the form does not come back; the selected file is unchanged |
| `Upload.UploadPage.HandleSubmit` | app/routes/upload.tsx:83-100 | without an enclosing form or a selected file nothing changes and no run starts; otherwise the run on the selected file happens: its events are logged, its writes applied, its exit returned and its status shown, the page stays processing with the form hidden, and the file is unchanged |
| `Resume.Load` | app/routes/resume.tsx:80-102 | a load changes nothing without a record, and the feedback it leaves is the old one or the record's |
| `Resume.PreviewShown` | app/routes/resume.tsx:120 | the preview condition; `Resume.CompleteLoadShowsPreview` and `Resume.IncompleteLoadShowsPlaceholders` state when it holds after a load |
| `Resume.ReviewShown` | app/routes/resume.tsx:132 | the review condition; `Resume.IncompleteLoadShowsPlaceholders` and `Resume.FailedRunShowsPlaceholder` state when it fails |
| `Resume.MissingRecordSetsNothing` | app/routes/resume.tsx:81-83 | without a record under `resume:<id>` nothing is set |
| `Resume.AsPdf` | app/routes/resume.tsx:90 | the resume bytes re-wrapped with the MIME type `application/pdf`; `Resume.FailedReadsSetPrefix` states that the resume URL is made from it |
| `Resume.FailedReadsSetPrefix` | app/routes/resume.tsx:87-98 | a failed resume read sets nothing; a failed image read sets only the resume URL |
| `Resume.FeedbackAfterBothReads` | app/routes/resume.tsx:95-100 | the feedback changes only after the record and both files are read, and is then the record's feedback; the image URL is never set without it |
| `Resume.CompleteLoadShowsPreview` | app/routes/resume.tsx:91-120 | a complete load onto a fresh page shows the preview when the URLs made are non-empty |
| `Resume.IncompleteLoadShowsPlaceholders` | app/routes/resume.tsx:81-139 | an incomplete load onto a fresh page shows neither the preview nor the review |
| `Resume.CompletedRunIsReviewed` | app/routes/resume.tsx:81-100 | after a completed upload run, loading the review page for its id gives the parsed feedback when both files can be read |
| `Resume.FailedRunShowsPlaceholder` | app/routes/resume.tsx:132-139 | after an upload run whose analysis failed, the review page never shows a review, because the stored feedback is the empty string |
| `Resume.Ats` | app/routes/resume.tsx:135 | the ATS panel's arguments exist exactly when the feedback has a non-null `ATS` entry, and then its tips are truthy |
| `Resume.AtsDefaults` | app/routes/resume.tsx:135 | a truthy score or tips entry is passed on; a missing or falsy one becomes 0 or [] |
| `Resume.AtsPropsSettled` | app/routes/resume.tsx:135 | the ATS panel gets a truthy score or 0, and truthy tips |
| `Resume.Initials` | app/routes/resume.tsx:30-37 | at most two characters and no lower-case ASCII letter; "U" when there is no user |
| `Resume.InitialsAreWordStarts` | app/routes/resume.tsx:30-37 | the initials are the upper-cased first two word starts of the username, and contain no white space |
| `Resume.InitialsEdgeCases` | app/routes/resume.tsx:30-37 | an empty username gives no initials; a single word, with or without leading white space, gives its first character |
| `Resume.AuthRedirect` | app/routes/resume.tsx:24 | there is a redirect exactly when loading is done and the user is not signed in |
| `Resume.RedirectReturnsToReview` | app/routes/resume.tsx:24 | the redirect's `next` is the review path the upload navigates to |
| `Resume.ResumePage.constructor` | app/routes/resume.tsx:18-20 | both URLs empty, no feedback |
| `Resume.ResumePage.LoadResume` | app/routes/resume.tsx:80-102 | the new page state is `Load` of the old one |

## Left out

- Rendering is not modelled: JSX, CSS classes, the accordion, the navigation bar, the sign-out menu and `home.tsx`. Only the conditions that decide what is rendered are kept (`FormShown`, `PreviewShown`, `ReviewShown`, `ActionControl`, `OutcomePanel`).
- The storage upload and read, the key-value store, the AI gateways, the PDF converter, the id generator, `Blob`, `URL.createObjectURL` and `navigate` are I/O. Each is a parameter; navigation is an event in the run's log.
- `JSON.parse` and `JSON.stringify` are parameters; no JSON grammar is modelled. A record is written to and read from the store as a value, so its own `JSON.stringify`/`JSON.parse` round trip is taken to be the identity.
- The prompt wording and `prepareInstructions` are not modelled. The model keeps their arguments and whether the message carries the resume file part.
- `Upload.FeedbackText`: the code hands the first part's `text` to `JSON.parse` whatever its type, so a number would be converted to a string first. The model treats any non-string `text` as the uncaught error. A reply without a `message` field, which also throws, is not distinguished from other content.
- The `await`s are not interleaved. Each handler runs to completion, apart from `handleSuggest`, whose start and completion are separate methods so that the `loadingIndex` guard can be stated between them. Failures of `kv.set` itself are not modelled.
- `Resume.Initials`: `toUpperCase` is modelled for ASCII letters only, and `slice` counts Unicode scalar values rather than UTF-16 code units.
- `Details.IntegerScoreBands`: scores are real numbers; NaN, which the code puts in the red band with the warning icon, is not representable.
- The sign-out handler and the menu's open/closed toggle are presentation with a single fixed navigation and are not modelled.
