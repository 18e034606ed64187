# Slidely content-to-template pipeline, in Dafny

A model of the core of the Slidely browser extension's content script
(`content.js`). The extension lets a user paste assignment content into a side
panel on a Google Slides page. A language model maps that content onto the
presentation's text elements, and the result is written back with one Slides
API `batchUpdate`. The model covers the deterministic steps of that pipeline:

- **Template summary** (`Slides`): the Slides "presentation" resource and
  the `{slideNumber, currentContent, textElements}` summary built from it.
  There is one entry per slide, numbered from 1. A slide keeps the page
  elements that have `shape.text`, in document order, and each element's
  text is the concatenation of its text runs. The summariser is written as
  the source runs it: a method with a loop that appends to `textContent` and
  pushes onto `textElements`. It is proved equal to recursive specification
  functions, and the properties are lemmas about those functions.
- **Reply extraction** (`Reply`): the greedy regular expression
  `/\{[\s\S]*\}/` over the model's reply. It is proved to give the leftmost,
  longest match: from the first `{` to the last `}`. It fails with
  `Failed to parse AI response` exactly when no `}` follows the first `{`.
  Prose before the object is dropped when it holds no `{`, and prose after
  it when it holds no `}`; otherwise the stray brace ends up inside the
  extracted text. `JSON.parse` is a function parameter that
  yields a typed `UpdatePlan` or a syntax-error message.
- **Batch builder** (`Plan`): the nested loops of `applyUpdatesToSlides`
  that push a `deleteText` (range `ALL`) and an `insertText` (index 0) per
  update. The batch is proved to hold exactly two requests per update. Request
  `2k` clears the `k`-th update's element and request `2k + 1` inserts that
  update's text. Slides are served in plan order.
- **Presentation id** (`PresentationId`): `/\/presentation\/d\/([a-zA-Z0-9-_]+)/`
  on the page URL. The result is the maximal run of id characters after the
  leftmost marker that has at least one such character after it. It is `null`
  (here `None`) when there is no such marker.
- **Panel controller** (`Panel`): a class holding the content script's
  `apiKey`, `window.templateData`, the Generate button's enabled flag, the
  status line, and a log of every request sent to the page's Slides client or
  to the completion endpoint. Generate starts disabled. Only a successful
  analysis enables it, and a failed analysis leaves the flag as it was. A
  click on the disabled button does nothing. With blank content
  (`String.prototype.trim`, with ECMAScript's white-space set) or with no key,
  the handler raises its alert and changes nothing: the status is untouched
  and no request is sent. `JsText` holds the trim and the decimal text of a
  count.

The page's `gapi` client (`presentations.get`, `presentations.batchUpdate`),
the completion endpoint and `JSON.parse` are the fields of a `Host` value
passed to the handlers. Their answers are inputs, and the requests the panel
makes to them are recorded in `ContentScript.sent`. `Panel.Session` is a
scenario, not a model of one source function: it drives the handlers of
content.js:92-168 through one session with any non-blank assignment: Generate does nothing
before an analysis. After one, a reply with prose before
`{"slides":[{"slideNumber":1,"updates":[{"objectId":"e1","text":"Growth: 15%"}]}]}`
sends `[deleteText(e1, ALL), insertText(e1, "Growth: 15%", 0)]`.

Three behaviours of the code worth knowing:

- A failed analysis does not disable Generate. It leaves the flag as it was,
  so after an earlier success the button stays enabled.
- Nothing checks that the ids in a plan come from the template.
- The extractor takes everything from the first `{` to the last `}` of the
  reply. A `{` in the prose before the object, or a `}` in the prose after
  it, is kept in the extracted text, which `JSON.parse` then rejects: for
  example `"a{b}: {}"` yields `{b}: {}`. `Reply.SurroundingProseIgnored`
  states the condition under which the object alone is extracted.

## Model

| member | source | states |
|---|---|---|
| `Slides.TemplateSummary` | content.js:218-242 | the summary as a value; characterised per slide by `Slides.SummariesExactly`, `Slides.SummariesInDocumentOrder` and `Slides.ContentIsConcatOfTexts`, and `Slides.SummariseTemplate` is proved equal to it |
| `Slides.SummariseSlide` | content.js:218-241 | the entry for slide `idx` is numbered `idx + 1`; its `currentContent` equals the concatenation of its entries' `currentText`; both are empty when `pageElements` is absent; and it equals the recursive specification |
| `Slides.SummariseTemplate` | content.js:218-242 | one summary per slide, in slide order; entry `i` has `slideNumber == i + 1`, lists the text-bearing elements of slide `i`, and has content equal to the concatenation of their texts |
| `Slides.SummariesInDocumentOrder` | content.js:222-234 | an element with `shape.text` contributes its entry exactly between the entries of the elements before and after it; an element without text contributes nothing |
| `Slides.SummariesExactly` | content.js:223-233 | every element with text has its `{objectId, currentText}` entry, and every entry comes from an element with text |
| `Slides.ContentIsConcatOfTexts` | content.js:219-232 | the accumulated `textContent` equals the in-order concatenation of the entries' `currentText` |
| `Slides.NoTextNoEntries` | content.js:222-235 | a slide whose elements carry no text yields no entries and empty content, not an error |
| `Slides.JoinPiecesAppend` | content.js:225-227 | an element's text is the in-order concatenation of its pieces' texts (joining distributes over concatenation) |
| `Slides.NonRunPieceContributesNothing` | content.js:226 | a text element without a text run contributes `''` to the joined text |
| `Slides.SummariesAppend` | content.js:223-233 | the entries of two runs of elements are the entries of the first followed by those of the second |
| `Slides.AccumulatedAppend` | content.js:228 | `textContent +=` over two runs of elements is the text of the first followed by that of the second |
| `Reply.JsonSpan` | content.js:305 | the `match` itself; characterised by `Reply.JsonSpanIsLeftmostLongest` as the leftmost-longest match of `\{[\s\S]*\}`, or none when the pattern matches nowhere |
| `Reply.ExtractJson` | content.js:305-309 | `jsonMatch[0]` or the thrown error; characterised by `Reply.ExtractJsonOutcome` and `Reply.SucceedsIffCloseAfterFirstOpen` |
| `Reply.ParseReply` | content.js:305-311 | the tail of `analyzeContentWithAI`: the `match`, the thrown error and `JSON.parse(jsonMatch[0])`; characterised by `Reply.ParseReplyParsesMatch` (success path) and `Reply.ParseReplyWithoutMatch` (no match) |
| `Reply.FirstIndex` | content.js:305 | the position of the first `{`: it holds `{` and no earlier position does, or none holds it |
| `Reply.LastIndex` | content.js:305 | the position of the last `}`: it holds `}` and no later position does, or none holds it |
| `Reply.JsonSpanIsLeftmostLongest` | content.js:305 | no span iff the pattern matches nowhere; otherwise the span is a match of `\{[\s\S]*\}`, no match starts further left, and none at that start is longer |
| `Reply.ExtractJsonOutcome` | content.js:305-309 | fails with `Failed to parse AI response` exactly when the pattern matches nowhere; otherwise the text starts with `{` and ends with `}` |
| `Reply.ParseReplyParsesMatch` | content.js:305-311 | for the leftmost-longest match of the pattern, however it is found, the result is `JSON.parse` of exactly that text |
| `Reply.ParseReplyWithoutMatch` | content.js:305-309 | a reply the pattern matches nowhere fails with `Failed to parse AI response` before `JSON.parse` is tried |
| `Reply.SucceedsIffCloseAfterFirstOpen` | content.js:305-309 | extraction succeeds iff some `}` occurs after the first `{` |
| `Reply.SurroundingProseIgnored` | content.js:305 | with no `{` in the prose before an object and no `}` in the prose after it, exactly the object is extracted |
| `Plan.PlanRequests` | content.js:320-339 | the batch as a value; characterised by `Plan.PlanRequestCount`, `Plan.PlanRequestsAlternate` and `Plan.PlanRequestsSplit`, and `Plan.BuildRequests` is proved equal to it |
| `Plan.BuildRequests` | content.js:318-339 | the requests pushed by the nested loops are the specification batch, two per update across all slides |
| `Plan.RequestsForAt` | content.js:321-337 | request `2k` is `deleteText{objectId, ALL}` of the `k`-th update and request `2k + 1` is `insertText{objectId, text, 0}` of it, with `objectId` and `text` copied unchanged |
| `Plan.RequestsForLength` | content.js:321-337 | two requests per update |
| `Plan.PlanRequestCount` | content.js:318-339 | the batch has exactly twice as many requests as the plan has updates over all slides |
| `Plan.PlanRequestsAlternate` | content.js:320-337 | even positions hold exactly the deletes; each delete is immediately followed by the insert of the same update's text into the same element |
| `Plan.PlanRequestsSplit` | content.js:320 | the batch of a plan is the batch of its first slides followed by the batch of the rest: slide order, then update order |
| `Plan.AllUpdatesAppend` | content.js:320-321 | the updates of two runs of slides are those of the first followed by those of the second |
| `Plan.RequestsForAppend` | content.js:321-337 | the requests of two runs of updates are those of the first followed by those of the second |
| `Plan.AllUpdatesLength` | content.js:320-321 | the flattened updates number the sum of the slides' update counts |
| `PresentationId.ExtractPresentationId` | content.js:170-173 | `match ? match[1] : null`; characterised by `PresentationId.ExtractPresentationIdSpec` and `PresentationId.FirstIdWins` |
| `PresentationId.RunLength` | content.js:171 | the greedy `[a-zA-Z0-9-_]+`: every character of the run is an id character and the next one is not |
| `PresentationId.FindMatch` | content.js:171 | the leftmost position at or after `from` where the marker is followed by an id character, or none |
| `PresentationId.ExtractPresentationIdSpec` | content.js:170-173 | `None` iff no marker is followed by an id character; otherwise a non-empty id that is the maximal run after the leftmost such marker |
| `PresentationId.MatchAtPrefix` | content.js:171 | whether the pattern matches at a position depends only on a prefix that reaches the first id character after the marker |
| `PresentationId.FindMatchStopsAtFirst` | content.js:171 | the scan returns the first position where the pattern matches, however many matches follow |
| `PresentationId.NoEarlierMatch` | content.js:171 | text without a match before a marker has no match in any longer URL that starts with it |
| `PresentationId.IdAfterMarker` | content.js:171 | a marker followed by id characters and then a non-id character (or the end) is a match whose greedy run is exactly those characters |
| `PresentationId.MaximalRunLength` | content.js:171 | a maximal run of id characters is unique: it is the one the greedy match takes |
| `PresentationId.FirstIdWins` | content.js:170-173 | after a prefix without a match, the id after the marker is returned, ending at the first character outside the class |
| `JsText.Trim` | content.js:127 | `content.trim()`; characterised by `JsText.TrimStartDropsLeadingSpace`, `JsText.TrimEndDropsTrailingSpace` and `JsText.TrimEmptyIffBlank` |
| `JsText.TrimStartDropsLeadingSpace` | content.js:127 | the result is a suffix whose first character is not white space, and everything cut is white space |
| `JsText.TrimEndDropsTrailingSpace` | content.js:127 | the result is a prefix whose last character is not white space, and everything cut is white space |
| `JsText.TrimEmptyIffBlank` | content.js:127 | `content.trim()` is empty iff every character is ECMAScript white space or a line terminator |
| `JsText.DecimalString` | content.js:116 | the count's text is non-empty decimal digits with no leading zero |
| `JsText.DecimalRoundTrip` | content.js:116 | the count's decimal text reads back as the count |
| `Panel.KeySet` | content.js:132 | `!apiKey` is false: a key that is neither missing nor `''`; the guard in `Panel.ContentScript.GenerateSlides` raises `SetApiKey` exactly when it fails |
| `Panel.Blank` | content.js:127 | `!content.trim()`; `JsText.TrimEmptyIffBlank` shows it holds exactly when every character is white space |
| `Panel.IdText` | content.js:348 | the id spliced into the injected script, `null` when there is none; `Panel.ContentScript.MapAndApply` sends the batch under it |
| `Panel.PlanFor` | content.js:217-311 | `analyzeContentWithAI`: the completion reply through the `match`, the thrown error and `JSON.parse(jsonMatch[0])`; `Panel.SessionReply` and `Panel.SessionGenerates` exhibit it |
| `Panel.Generated` | content.js:141-167 | the requests and final status of a generation past its guards; `Panel.ContentScript.MapAndApply` and `Panel.ContentScript.GenerateSlides` are proved to produce exactly it |
| `Panel.AnalyzedStatusReportsCount` | content.js:116-117 | after an analysis the status is a success line whose decimal count reads back as the number of slides |
| `Panel.ContentScript.constructor` | content.js:4-5 | the script starts with no key, no template, Generate disabled and nothing sent |
| `Panel.ContentScript.UpdateApiKey` | content.js:17-19 | the key is replaced and nothing else changes |
| `Panel.ContentScript.OpenSidePanel` | content.js:24-90 | a fresh panel has Generate disabled and an empty status; key, template and sent requests are kept |
| `Panel.ContentScript.AnalyzeTemplate` | content.js:92-123 | Generate ends up enabled iff it was already or this analysis found an id and fetched the presentation; without an id the status is `Error: Could not detect presentation ID` and nothing is sent; otherwise one `get` is sent and the status reports the client's error or the slide count; the status class is success exactly when the analysis succeeded and error otherwise |
| `Panel.ContentScript.GenerateSlides` | content.js:125-168 | a click on the disabled button changes nothing; blank content or a missing key raises the matching alert with no status change and no request sent; otherwise the pipeline runs with the template's summary; key, template and enabled flag are unchanged |
| `Panel.ContentScript.MapAndApply` | content.js:141-167 | one completion request; if a plan is parsed, one batch of exactly that plan's requests for the page's id (`null` when none); the status shows the first failure or the success message |
| `Panel.SessionBatch` | content.js:318-339 | the session's plan is applied as `[deleteText(e1, ALL), insertText(e1, "Growth: 15%", 0)]` |
| `Panel.SessionReply` | content.js:305-311 | the session's reply, prose before the object, parses to its plan |
| `Panel.SessionGenerates` | content.js:141-167 | with a host that returns that reply and accepts the batch, a generation sends the completion request and then the one delete-then-insert batch, and reports success |

## Left out

- DOM construction and rendering: `openSidePanel`'s markup, the close button, `displayTemplateStructure`, `displayPreview`, the status element's style, and the alert dialogs. An alert is returned as text and the status as a class and a text.
- The injected-script and `window.postMessage` bridges of `fetchPresentationData` and `applyUpdatesToSlides`. They are asynchronous message passing to a `gapi` client outside the extension. Their outcomes are `Host.get` and `Host.batchUpdate`, and the requests are the `GetPresentation` and `BatchUpdate` entries of `sent`.
- The OpenAI `fetch` and the prompt text. `CompletionRequest` holds what the prompt and the bearer header are built from. The prompt wording, its `JSON.stringify` layout, the model name, the temperature (0.5, a float) and `max_tokens` are not modelled. Every failure on the way to `choices[0].message.content` is one `Host.complete` failure message.
- `JSON.parse` is the `Host.parse` parameter, and it yields an already-typed `UpdatePlan`. A parsed plan that lacks `slides` or `updates` makes `displayPreview` throw before `Applying to slides...` is shown (content.js:153, 414-419); in the model that outcome is a `Host.parse` failure.
- A parsed plan whose updates lack `objectId` or `text` (such as `{"slides":[{"updates":[{}]}]}`) passes `displayPreview` and the loops, and the source sends a batch whose requests omit those fields, since `JSON.stringify` drops `undefined`. `Host.parse` cannot yield such a plan, so that batch is not modelled.
- A presentation without a `slides` field, a `shape.text` without a `textElements` array, and elements without an `objectId` are not modelled: the resource types always carry all three. The Slides API omits empty repeated fields, so a presentation with no slides can come back without `slides`. In both cases the source throws in `displayTemplateStructure` (content.js:384 for `slides`, 392 for `textElements`). Either way `analyzeTemplate` has already replaced `window.templateData` (content.js:109) when its catch shows `Error: ...`, and a Generate enabled by an earlier analysis then throws in the summariser (content.js:218 or 224) before any completion request. `Panel.ContentScript.AnalyzeTemplate` promises that a failed analysis keeps the stored template, which holds only because these resources are excluded.
- Asynchrony and re-entrancy: each handler runs to completion. A second click while a request is in flight, and the delay before the stored key arrives, are not modelled. `UpdateApiKey` stands for both the storage load and the `updateApiKey` message.
- The intermediate status texts (`Analyzing template...`, `Generating slides with AI...`, `Applying to slides...`) are set as the source sets them. Every completed handler overwrites them, so the contracts state only the final status.
- `console.log`/`console.error`, `popup.js` (key form, storage and routing) and `background.js` (install hook, icon click) are out of scope: they are extension glue with no logic beyond forwarding messages.
