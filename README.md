# ai-tutor annotation pipeline, modelled in Dafny

ai-tutor is a PDF study tool. A student reads a document in a viewer and chats with an AI tutor beside it. The tutor's reply text can carry two kinds of directive:

- `PAGE_REFERENCE: <n>` makes the viewer jump to page `n`;
- `ANNOTATION: {...}` holds an object literal that becomes a highlight, circle or rectangle drawn over the page.

The student can draw the same records by hand. AI-made and hand-made annotations live in one collection owned by the tutor session. The viewer filters that collection per page, using the page tag carried in each annotation's id.

This project models that pipeline, module by module:

- **Text** (`text.dfy`): the JavaScript string operations the pipeline relies on. These are `trim` and the `\s` whitespace set, ASCII case mapping, `startsWith`, `includes`, `indexOf`, `replace` of a literal string, `slice(0, n)`, the decimal rendering `${n}`, and `parseInt`.
- **Seqs** (`seqs.dfy`): `Array.prototype.filter`, with its order and composition lemmas.
- **Annotations** (`annotations.dfy`): the shared `Annotation` record and the raw object a directive decodes to. It also holds the `page-<n>-` id tag and the notion of a global (untagged) annotation.
- **ChatRoute** (`chat_route.dfy`): the reply-parsing block of the chat endpoint.
  - The two case-insensitive regular expressions are written out as scanners.
  - The page-reference step and the annotation loop are methods. Each is proved equal to a specification function.
  - Lemmas cover completeness of the global scan, failure independence, and the strict-JSON consequence for the documented directive format.
  - The module also holds the chat title and the conversation-history rendering.
- **Tutor** (`tutor.dfy`): the session object, holding the current page and the annotation store. Its methods are the two callbacks that write the store.
- **ChatClient** (`chat_client.dfy`): the chat panel.
  - Normalization turns raw reply annotations into records: `||` defaults, `ai-<messageId>-<index>` ids, a 100-character caption.
  - Sending is a two-step state machine, the guard plus the response handling. The response handling calls into the tutor session.
- **Viewer** (`viewer.dfy`): the PDF viewer.
  - Pure parts: the visibility, delete and clear filters, and page and zoom stepping.
  - The draw machine is a class whose mouse handlers update the candidate. It commits to the session store on mouse up.
- **Overlay** (`overlay.dfy`): the style and class list of each annotation kind, and the hover state that gates the delete button.
- **PdfProcessor** (`pdf_processor.dfy`): the placeholder text extractor and the case-insensitive page search.
- **UploadDialog** (`upload_dialog.dfy`): the upload form. It covers file validation, the title derived from the file name, the upload guard, how an upload ends, and reset on close.

Design choices:

- **The JSON decoder.** `JSON.parse` is a parameter `decode: string -> Option<RawAnnotation>`. `None` stands for a thrown parse error.
- **Strict JSON.** `ChatRoute.StrictKeys` states the one property of strict JSON the model needs: an object literal that starts at `{` decodes only if its first key is double-quoted (or it is empty). It says nothing about text with whitespace before the `{`, which `JSON.parse` also accepts; the literal of a directive match always starts at `{`.
- **Time.** `Date.now()` and `new Date()` are a single `now` input.
- **Coordinates.** These are percentages, given as `real` inputs.

## Model

| member | source | states |
|---|---|---|
| Text.Trim | app/api/chat/route.ts:122 | `trim()` returns the slice of the text left after cutting a whitespace-only front and back, and neither end of that slice is whitespace; the result is empty iff the text is all whitespace |
| Seqs.Filter | components/tutor/pdf-viewer.tsx:45 | `filter` keeps exactly the elements passing the test and never lengthens the list |
| Seqs.FilterAppend | components/tutor/pdf-viewer.tsx:45 | filtering a concatenation filters each part and concatenates, so the kept elements stay in their order |
| Text.TrimIdempotent | app/api/chat/route.ts:133 | trimming twice is trimming once, so the repeated `trim()` after each removed directive only ever trims the text once |
| Text.IndexOfFrom | components/dashboard/pdf-upload-dialog.tsx:29 | `indexOf` finds the first position at or after the start where the pattern occurs, and none exists when it returns nothing |
| Text.RemoveFirst | components/dashboard/pdf-upload-dialog.tsx:29 | `replace` with a string pattern cuts out the first occurrence only and leaves text without one unchanged |
| Text.Take | app/api/chat/route.ts:59 | `slice(0, n)` is a prefix of length min(n, length) |
| Text.NatToString | components/tutor/pdf-viewer.tsx:85 | the template literal `${n}` renders a number as decimal digits without leading zeros |
| Text.DigitsValue | app/api/chat/route.ts:121 | `parseInt` of decimal digits ignores leading zeros |
| Text.DigitsValueOfNatToString | app/api/chat/route.ts:121 | `parseInt` inverts the decimal rendering of a page or index number |
| Text.NatToStringInjective | components/tutor/enhanced-chat-interface.tsx:97 | distinct numbers render to distinct decimal strings |
| ChatRoute.PageRefAt | app/api/chat/route.ts:119 | a match found at a position is a match of `PAGE_REFERENCE:\s*(\d+)` with the ASCII case ignored |
| ChatRoute.PageRefUnique | app/api/chat/route.ts:119 | the pattern has at most one match at a position, and the scanner returns it |
| ChatRoute.FindPageRef | app/api/chat/route.ts:119 | `match` without `g` finds the first position where the pattern matches, and none exists when it returns nothing |
| ChatRoute.PageNumberOf | app/api/chat/route.ts:119-121 | the page number is null exactly when the pattern matches nowhere; otherwise it is the parsed digits of the first match |
| ChatRoute.StripPageRefs | app/api/chat/route.ts:122 | the global replace never lengthens the text |
| ChatRoute.PageRefsFrom | app/api/chat/route.ts:122 | the global replace's scan finds matches left to right, none overlapping |
| ChatRoute.PageRefsComplete | app/api/chat/route.ts:122 | the global replace misses no reference: every matching position lies inside a removed span |
| ChatRoute.StripIsGaps | app/api/chat/route.ts:122 | the replaced text is exactly the text between the removed references, in order |
| ChatRoute.StripWithoutPageRefs | app/api/chat/route.ts:122 | with no page reference the global replace leaves the text unchanged |
| ChatRoute.FirstPageRefWins | app/api/chat/route.ts:119-121 | `PAGE_REFERENCE: <n>` at the front yields page number `n`, whatever follows |
| ChatRoute.ExtractPageReference | app/api/chat/route.ts:114-123 | the page number is the parsed digits of the first reference, or null; the text is stripped and trimmed only when one was found |
| ChatRoute.DirectiveAt | app/api/chat/route.ts:126 | what the scanner finds at a position is a match of `ANNOTATION:\s*({[^}]+})`, and it finds every such match |
| ChatRoute.DirectivesFrom | app/api/chat/route.ts:126 | the global scan yields matches in text order, none overlapping |
| ChatRoute.DirectivesComplete | app/api/chat/route.ts:126 | the global scan misses no match: every matching position lies inside a match found |
| ChatRoute.NoDirectivesIff | app/api/chat/route.ts:126-127 | `annotations` stays null exactly when the pattern matches nowhere |
| ChatRoute.ExtractAnnotations | app/api/chat/route.ts:126-138 | the loop's list and text equal the specification: each match decoded in order, a decoded one appended and its first occurrence cut out and trimmed |
| ChatRoute.DecodeMatches | app/api/chat/route.ts:129-138 | the `for` loop over any list of matches yields the decoded literals in order and the text with each decoded match's first occurrence cut out and trimmed |
| ChatRoute.DecodeStep | app/api/chat/route.ts:129-137 | one turn of the loop extends the specification by exactly the current match |
| ChatRoute.ParseReply | app/api/chat/route.ts:113-138 | the parse block yields the first page number, the decoded annotations (null when nothing matched) and the cleaned text |
| ChatRoute.DecodedAtMostMatches | app/api/chat/route.ts:129-137 | at most one annotation per match |
| ChatRoute.DecodedSplit | app/api/chat/route.ts:129-137 | a parse failure does not disturb its neighbours: the result for a list is the result of its parts, concatenated |
| ChatRoute.FailedMatchLeavesText | app/api/chat/route.ts:134-136 | a literal that fails to parse adds nothing and leaves the cleaned text exactly as it was |
| ChatRoute.AllDecodedWhenAllParse | app/api/chat/route.ts:129-137 | when every literal parses there is exactly one annotation per match, in order |
| ChatRoute.UnquotedDirectivesAreDropped | app/api/chat/route.ts:94-96 | under a strict JSON decoder, matches whose literals start at `{` in the documented form (unquoted keys) never yield an annotation and stay in the cleaned text |
| ChatRoute.DirectiveLiteralsOpenObjects | app/api/chat/route.ts:126-132 | every literal the annotation scan passes to `JSON.parse` starts at `{`, so the strict-key property of `JSON.parse` applies to each of them |
| ChatRoute.UnquotedReplyKeepsDirectives | app/api/chat/route.ts:126-138 | when every directive the scan finds is in the documented form, the reply's list is empty and the text keeps every directive |
| ChatRoute.DocumentedExampleIsDropped | app/api/chat/route.ts:94-96 | `ANNOTATION: {x: 20}` is one match that decodes to nothing, giving an empty, non-null list and an untouched text |
| ChatRoute.ChatTitle | app/api/chat/route.ts:59 | the title starts with the message's first 50 characters and has at most 53; a longer message gets "..." |
| ChatRoute.HistoryLine | app/api/chat/route.ts:80 | a line is "User: " for the role "user" and "Assistant: " for any other role, followed by the message content verbatim |
| ChatRoute.History | app/api/chat/route.ts:78-81 | the history is empty exactly when there are no messages, and begins with the first message's line |
| ChatRoute.JoinLinesShape | app/api/chat/route.ts:81 | `join("\n")` of no lines is empty; otherwise it starts with the first line, ends with the last, and its length is that of the lines plus one newline between each two |
| ChatRoute.HistoryAppend | app/api/chat/route.ts:79-81 | one more message adds exactly one line, after a newline |
| Tutor.TutorSession.constructor | components/tutor/tutor-interface.tsx:37-38 | a session opens on page 1 with no annotations |
| Tutor.TutorSession.AddAnnotations | components/tutor/tutor-interface.tsx:43-45 | the batch is appended after the existing annotations; the page is untouched |
| Tutor.TutorSession.ChangeAnnotations | components/tutor/tutor-interface.tsx:47-49 | the collection is replaced wholesale; the page is untouched |
| Tutor.TutorSession.SetPage | components/tutor/tutor-interface.tsx:81 | the shared page changes and the annotations do not |
| Tutor.IdCountAppend | components/tutor/tutor-interface.tsx:43-45 | appending does not deduplicate: id counts add up |
| ChatClient.OrString | components/tutor/enhanced-chat-interface.tsx:98-103 | the logical-or default on a string field: the value when present and non-empty, the fallback otherwise |
| ChatClient.OrNumber | components/tutor/enhanced-chat-interface.tsx:99-102 | the logical-or default on a number field: the value when present and non-zero, the fallback otherwise |
| ChatClient.Normalize | components/tutor/enhanced-chat-interface.tsx:96-107 | the record gets the reply-scoped id, the AI as creator and the first 100 characters of the reply as caption; type, colour, width and height are the raw value when truthy and the default otherwise, so never falsy; x and y are the raw value whenever present, 0 otherwise |
| ChatClient.NormalizeRoundTrip | components/tutor/enhanced-chat-interface.tsx:98-103 | truthy fields pass through unchanged; x and y survive even at 0 |
| ChatClient.ZeroWidthBecomesDefault | components/tutor/enhanced-chat-interface.tsx:101 | a zero or absent width becomes 10 |
| ChatClient.PositionOnlyDefaults | components/tutor/enhanced-chat-interface.tsx:97-103 | `{x: 20, y: 30}` becomes a 10 by 5 highlight at (20, 30) in `#dc2626` |
| ChatClient.AiId | components/tutor/enhanced-chat-interface.tsx:97 | the id is `ai-` then the message id then `-` then the decimal index |
| ChatClient.AiIdsDistinct | components/tutor/enhanced-chat-interface.tsx:97 | different positions in one reply get different ids |
| ChatClient.AiIdHasPage | components/tutor/enhanced-chat-interface.tsx:97 | an AI id contains `page-` exactly when the message id followed by `-` does |
| ChatClient.AiIdIsGlobal | components/tutor/enhanced-chat-interface.tsx:97 | a sufficient condition: a message id without `-` that does not end in "page" gives an id without `page-`, which shows on every page |
| ChatClient.AiIdEndingInPageIsHidden | components/tutor/enhanced-chat-interface.tsx:97 | a message id ending in `page` gives an AI id holding `page-` that is tagged with no page, so no page shows the annotation |
| ChatClient.NormalizeBatch | components/tutor/enhanced-chat-interface.tsx:96-107 | one record per raw annotation, in order, with ids distinct within the reply |
| ChatClient.AddedBatch | components/tutor/enhanced-chat-interface.tsx:95-109 | nothing is added for a null list; otherwise each raw annotation, in order, becomes its normalized AI record |
| ChatClient.ChatSession.constructor | components/tutor/enhanced-chat-interface.tsx:36-40 | the panel opens on the chat's messages and id, with empty input and not loading |
| ChatClient.ChatSession.SetInput | components/tutor/enhanced-chat-interface.tsx:37 | typing changes only the input |
| ChatClient.ChatSession.BeginSend | components/tutor/enhanced-chat-interface.tsx:49-64 | blank input or a request in flight changes nothing; otherwise the trimmed input is appended as a user message, the input cleared and loading set |
| ChatClient.Navigates | components/tutor/enhanced-chat-interface.tsx:92-94 | the panel moves only to a page numbered 1 or more; a null page or page 0 is falsy and moves nothing |
| ChatClient.ChatSession.CompleteSend | components/tutor/enhanced-chat-interface.tsx:77-127 | a reply is appended, navigates only for a truthy page and adds its normalized annotations once; a failure appends exactly one fallback message; loading ends either way |
| Viewer.VisibleOn | components/tutor/pdf-viewer.tsx:44-47 | a page shows exactly the annotations tagged `page-<page>-` or global, in store order |
| Viewer.DeleteById | components/tutor/pdf-viewer.tsx:142-145 | delete keeps exactly the annotations with another id |
| Viewer.DeleteKeepsOrder | components/tutor/pdf-viewer.tsx:143 | delete keeps the others in their order |
| Viewer.DeleteAbsentId | components/tutor/pdf-viewer.tsx:143 | deleting an id nobody carries changes nothing |
| Viewer.DeleteRemovesAll | components/tutor/pdf-viewer.tsx:143 | after a delete no annotation carries the id |
| Viewer.ClearPage | components/tutor/pdf-viewer.tsx:147-150 | clear keeps exactly the annotations not tagged with the current page |
| Viewer.OnPageNotGlobal | components/tutor/pdf-viewer.tsx:45 | a page-tagged annotation is never global |
| Viewer.DrawnIdOnPage | components/tutor/pdf-viewer.tsx:45 | a drawn id `page-<p>-<ts>` is visible on page q iff p = q, so page 1 does not show `page-12-…` |
| Viewer.ClearedPageShowsGlobals | components/tutor/pdf-viewer.tsx:147-150 | after clearing, the page shows exactly the global annotations, in order |
| Viewer.ClearKeepsGlobals | components/tutor/pdf-viewer.tsx:148 | clear never removes a global annotation |
| Viewer.ThirdPageExample | components/tutor/pdf-viewer.tsx:45 | page 3 shows `page-3-xyz` and `abc` but not `page-4-xyz` |
| Viewer.PrevPage | components/tutor/pdf-viewer.tsx:54-58 | one page back above page 1, otherwise no change |
| Viewer.NextPage | components/tutor/pdf-viewer.tsx:60-64 | one page on below the last page, otherwise no change |
| Viewer.PagingStaysInRange | components/tutor/pdf-viewer.tsx:54-64 | stepping keeps a page in [1, numPages] |
| Viewer.ZoomIn | components/tutor/pdf-viewer.tsx:66-68 | zoom grows by 0.25, or becomes 3 when that would exceed 3 |
| Viewer.ZoomOut | components/tutor/pdf-viewer.tsx:70-72 | zoom shrinks by 0.25, or becomes 0.5 when that would drop below 0.5 |
| Viewer.ZoomStaysOnGrid | components/tutor/pdf-viewer.tsx:66-72 | zoom stays on the quarter steps between 0.5 and 3 |
| Viewer.NewCandidate | components/tutor/pdf-viewer.tsx:84-94 | the candidate is zero-sized at the pointer, tagged with the current page, user-made, yellow for highlights and red otherwise |
| Viewer.Stretch | components/tutor/pdf-viewer.tsx:102-126 | a move gives the smallest box holding the pointer and the candidate's current corner; only the box changes |
| Viewer.SingleMoveExample | components/tutor/pdf-viewer.tsx:112-115 | one move from (50, 50) to (10, 10) draws (10, 10, 40, 40) |
| Viewer.TwoMovesLoseAnchor | components/tutor/pdf-viewer.tsx:112-115 | a second move measures from the previous move's corner, so the box no longer reaches where the drag started |
| Viewer.PdfViewer.constructor | components/tutor/pdf-viewer.tsx:32-38 | one page, zoom 1, loading, the select tool, idle |
| Viewer.PdfViewer.Load | components/tutor/pdf-viewer.tsx:49-52 | loading ends with the placeholder page count 10 |
| Viewer.PdfViewer.SelectTool | components/tutor/pdf-viewer.tsx:182 | only the tool changes |
| Viewer.PdfViewer.ZoomInClicked | components/tutor/pdf-viewer.tsx:66-68 | the zoom steps in and nothing else changes |
| Viewer.PdfViewer.ZoomOutClicked | components/tutor/pdf-viewer.tsx:70-72 | the zoom steps out and nothing else changes |
| Viewer.PdfViewer.PrevClicked | components/tutor/pdf-viewer.tsx:54-58 | the shared page steps back within bounds |
| Viewer.PdfViewer.NextClicked | components/tutor/pdf-viewer.tsx:60-64 | the shared page steps on within bounds |
| Viewer.PdfViewer.MouseDown | components/tutor/pdf-viewer.tsx:74-99 | the select tool ignores the press; any other tool enters drawing with a new candidate tagged with the session's current page |
| Viewer.PdfViewer.MouseMove | components/tutor/pdf-viewer.tsx:102-126 | a move while idle changes nothing; while drawing the candidate is stretched |
| Viewer.Commits | components/tutor/pdf-viewer.tsx:132 | a candidate is saved only when both sides exceed 1, so its area exceeds 1; a side of 1 or less discards it |
| Viewer.ClickAloneCommitsNothing | components/tutor/pdf-viewer.tsx:132 | a click without a drag leaves a zero-sized candidate that is never saved |
| Viewer.PdfViewer.MouseUp | components/tutor/pdf-viewer.tsx:128-140 | while drawing, the candidate is appended iff wider and taller than 1, and the machine is idle afterwards; an up while idle changes nothing |
| Viewer.PdfViewer.DeleteClicked | components/tutor/pdf-viewer.tsx:142-145 | the store becomes the delete filter of itself |
| Viewer.PdfViewer.ClearClicked | components/tutor/pdf-viewer.tsx:147-150 | the store loses the current page's annotations |
| Overlay.AnnotationStyle | components/tutor/annotation-overlay.tsx:23-58 | every style is the annotation's box; highlight, circle and rectangle get their border, fill and radius; any other type gets the base style |
| Overlay.KindsLookDifferent | components/tutor/annotation-overlay.tsx:33-57 | only known kinds have a border, which ends in the colour; only highlights have a 2px border and only circles are round |
| Overlay.AnnotationClasses | components/tutor/annotation-overlay.tsx:60-68 | a user annotation gets exactly "transition-all duration-200" and an AI one that plus " animate-pulse", so the pulse marks exactly the AI annotations |
| Overlay.ClassesShowCreator | components/tutor/annotation-overlay.tsx:60-68 | two annotations get the same classes iff they have the same creator |
| Overlay.DeleteButtonVisible | components/tutor/annotation-overlay.tsx:97 | the delete button shows exactly for the hovered annotation when it does not carry the AI indicator |
| Overlay.ShowsAiIndicator | components/tutor/annotation-overlay.tsx:114 | the AI indicator shows exactly on the annotations whose classes end in the pulse animation |
| Overlay.BadgePoint | components/tutor/annotation-overlay.tsx:103-104 | the delete button and the AI indicator sit at the box's top-right corner (x + width, y) |
| Overlay.BadgesExclusive | components/tutor/annotation-overlay.tsx:97-114 | the delete button shows only for the hovered, user-made annotation, so never together with the AI indicator |
| Overlay.HoverState.constructor | components/tutor/annotation-overlay.tsx:21 | nothing is hovered at first |
| Overlay.HoverState.Enter | components/tutor/annotation-overlay.tsx:81 | hovering records the id, and the delete button shows iff a user made the annotation |
| Overlay.HoverState.Leave | components/tutor/annotation-overlay.tsx:82 | leaving clears the hover, so no delete button shows |
| PdfProcessor.MockExtract | lib/pdf-processor.ts:26-37 | ten 612×792 pages numbered 1 to 10, with the sample text and a page count equal to the number of pages |
| PdfProcessor.SampleTextsDistinct | lib/pdf-processor.ts:28 | the sample pages differ in their text |
| PdfProcessor.Score | lib/pdf-processor.ts:53-63 | a result copies the page's number and text; its score is positive iff the lower-cased text contains the lower-cased query |
| PdfProcessor.SortByScore | lib/pdf-processor.ts:65 | the sort is a permutation ordered by descending score |
| PdfProcessor.SortEqualScores | lib/pdf-processor.ts:65 | with equal scores the stable sort is the identity |
| PdfProcessor.Search | lib/pdf-processor.ts:44-68 | `searchPDFContent` returns exactly the matching pages, scored 1, in document order |
| PdfProcessor.SearchIsMatchingPages | lib/pdf-processor.ts:52-65 | score, filter and stable sort together give exactly the matching pages, scored 1, in document order |
| PdfProcessor.MatchingPagesMembership | lib/pdf-processor.ts:52-64 | a result is present iff it comes from a page whose text contains the query, ignoring case |
| PdfProcessor.EmptyQueryFindsAll | lib/pdf-processor.ts:56 | the empty query finds every page, in order |
| UploadDialog.TitleFromName | components/dashboard/pdf-upload-dialog.tsx:29 | the proposed title is the file name with its first `.pdf` cut out, and the name itself when it holds none |
| UploadDialog.TitleOfPdfName | components/dashboard/pdf-upload-dialog.tsx:29 | `<stem>.pdf` proposes the stem when the stem holds no `.pdf` |
| UploadDialog.FirstSuffixOnly | components/dashboard/pdf-upload-dialog.tsx:29 | `notes.pdf.pdf` proposes `notes.pdf` |
| UploadDialog.FailureMessage | components/dashboard/pdf-upload-dialog.tsx:61-66 | a failed upload always shows a non-empty message: the server's error when truthy, else a fixed text per failure kind |
| UploadDialog.TutorPath | components/dashboard/pdf-upload-dialog.tsx:59 | success navigates to `/tutor/<documentId>` |
| UploadDialog.UploadForm.constructor | components/dashboard/pdf-upload-dialog.tsx:19-22 | the form starts with no file, an empty title and error, not uploading, and the upload button disabled |
| UploadDialog.UploadForm.FileChanged | components/dashboard/pdf-upload-dialog.tsx:25-35 | a PDF is kept, titles the document and clears the error; anything else clears the file, keeps the title and reports the error |
| UploadDialog.UploadForm.TitleChanged | components/dashboard/pdf-upload-dialog.tsx:125 | typing changes only the title |
| UploadDialog.UploadForm.UploadEnabled | components/dashboard/pdf-upload-dialog.tsx:135 | the upload button is enabled exactly when a file is chosen, no upload runs and the title has a non-whitespace character |
| UploadDialog.UploadForm.BeginUpload | components/dashboard/pdf-upload-dialog.tsx:37-49 | without a file or with a blank title only the error changes; otherwise uploading starts with the trimmed title, so a click on the enabled button (file set, title not blank, not uploading) always starts one |
| UploadDialog.UploadForm.CompleteUpload | components/dashboard/pdf-upload-dialog.tsx:56-69 | success returns the tutor page; failure shows its message; uploading ends either way |
| UploadDialog.UploadForm.Reset | components/dashboard/pdf-upload-dialog.tsx:72-77 | the form returns to its initial state |
| UploadDialog.UploadForm.CancelClicked | components/dashboard/pdf-upload-dialog.tsx:132 | Cancel, usable only when no upload runs, asks the parent to close without resetting: file, title, error and uploading flag stay |
| UploadDialog.UploadForm.OpenChanged | components/dashboard/pdf-upload-dialog.tsx:82-85 | a close reported through the Dialog's `onOpenChange` handler resets the form and disables the upload button; opening leaves it as is |

## Left out

- Authentication, sessions and database reads and writes in app/api/chat/route.ts. The chat record that stores the title, and the message query that feeds the history, are outside the model; title and history are functions of their inputs.
- The `generateText` call and the prompt text. The reply text is an input.
- `JSON.parse`: a decoder parameter. A decoded value of the wrong JSON type is not modelled: the raw fields are `Option<real>` and `Option<string>`, so a truthy string where a number is expected cannot arise.
- Full-Unicode `toLowerCase` and `toUpperCase`: only ASCII letters change case. The `/i` regular expressions are still exact: without the `u` flag no non-ASCII character folds to an ASCII one, and both markers are ASCII.
- Number precision: `parseInt` of very long digit strings and page numbers beyond 2^53 are exact integers here.
- `fetch`, router navigation, `console.error`, and the parent's `onOpenChange` callback: requests are returned, responses are inputs.
- The pixel-to-percentage conversion through `getBoundingClientRect`. Pointer positions are given in percent. A missing bounding box (the early return in the mouse handlers) is not modelled.
- React scheduling: effects, memoised callbacks and stale closures. Each handler runs on the current state. The visible subset is computed on demand by `Viewer.VisibleOn` rather than stored.
- Rendering: JSX, tooltips, the iframe URL, loading spinners, quick-question buttons, voice input (lib/voice-service.ts is not part of this model), the candidate's dashed style, and the percentage strings of the style.
- The mouse handlers can only fire once the viewer has loaded (the container is not rendered before). The model does not check `isLoading` in them.
- Take: counts characters (Unicode scalar values), while `slice` counts UTF-16 code units. For text outside the Basic Multilingual Plane the source cuts sooner and can split a surrogate pair; the model cannot.
- ChatTitle: the 50-character cut and the "..." test use character counts, not UTF-16 code units. A message of 26 emoji has JavaScript length 52 and gets cut there; the model keeps it whole.
- Normalize: the 100-character caption is counted in characters, not UTF-16 code units, as for Take.
- Zoom is an exact real number, not a binary float. On the quarter grid the two agree.
- The optional `onAnnotationsChange` prop is always wired, as tutor-interface does.
- components/tutor/chat-interface.tsx, annotation-toolbar.tsx and the dashboard pages are not part of this model.
