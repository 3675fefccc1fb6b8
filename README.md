# Relay-It-Server core, modelled in Dafny

Relay-It is a notebook app. Each session collects screenshots, and a language model does three jobs:

- it turns each screenshot into OCR text and a hotel entity;
- it reconciles the screenshots into a session state: a summary, a category, entities, a suggested title and suggestions;
- it answers chat messages that either edit the session's markdown note or ask about it.

This project models the deterministic code around that untrusted model boundary, and proves properties about it.

The three API routes:

- **Regeneration route.** It assembles a prompt from the previous state and the ordered screen analyses. It filters the generator's suggestions down to the closed question / ranking / next-step union, fills every other field with a default, and answers one neutral state on every failure path.
- **Chat route.** It builds the edit-or-question prompt with optional context. It strips code fences from the answer and checks the answer's structure. When that fails it answers a canned reply that leaves the note unchanged.
- **Analysis route.** It strips a data-URL prefix and normalises the hotel entity, using `null` defaults.

The pure view rules of the front end:

- the backend-to-frontend session mapper;
- the card description and its labels;
- the grouping of suggestions;
- the summary panel's title rules.

Two small state machines are modelled as classes:

- the screenshot carousel;
- the chat panel's message log.

The service, `JSON.parse` and `JSON.stringify` are function parameters. The service is modelled as `string -> Outcome` (threw, a non-ok status, or the answer text). So every route is a total function of its request and of what the service answered.

Modules:

- `Wrappers` and `Json` hold JSON values, JavaScript truthiness, property reads and `||` defaults.
- `Text` holds truncation, `indexOf`, single replacement, `trim`, and string joins with their lemmas.
- `Types` holds the shared records of `lib/types.ts`.
- `Generation` is the service boundary.
- One module per core source file: `Regenerate`, `ChatRoute`, `AnalyzeRoute`, `SessionMapper`, `SessionCardList`, `SessionSuggestionsPanel`, `SessionSummaryPanel`, `SessionScreenshotCarousel` and `SessionChatPanel`.

Where the route code is weaker than the documented contract, the model follows the code:

- entity elements are only checked to be an array, never validated one by one;
- an accepted chat answer is returned as it is, and the original note is not substituted when `updatedNote` is missing (`ChatRoute.AcceptedAnswerMayOmitNote`);
- a missing key in the chat route is a 500 error, not the canned reply.

## Model

| member | source | states |
|---|---|---|
| Text.Truncate | app/api/regenerate/route.ts:182 | `substring(0, n)` plus `'...'` when longer: text of at most `n` characters is kept as it is; longer text becomes its first `n` characters followed by `'...'`, `n + 3` characters in all. |
| Text.TruncateSpec | app/api/regenerate/route.ts:182 | Raw text of at most the limit is kept as it is. Longer text becomes exactly its first `n` characters plus `'...'`. The result is never longer than `n + 3`. |
| Text.TruncateIdempotent | app/api/regenerate/route.ts:182 | Truncating an already truncated text at the same limit changes nothing. |
| Text.Trim | components/SessionChatPanel.tsx:50 | `trim` never lengthens the text, and what it returns is empty or neither starts nor ends with white space. |
| Text.TrimSpec | components/SessionChatPanel.tsx:50 | `trim` removes exactly the leading and trailing white space. What remains is empty or starts and ends with a non-white-space character. |
| Text.TrimIdempotent | components/SessionChatPanel.tsx:50 | Trimming twice is trimming once. |
| Text.IndexOf | app/api/analyze/route.ts:49 | `indexOf` gives the first occurrence, or the length when the character is absent (both directions). |
| Text.ReplaceFirst | components/SessionCardList.tsx:45 | `replace` with a one-character pattern changes only the first occurrence and keeps the length. |
| Regenerate.BuildPrompt | app/api/regenerate/route.ts:82-187 | The loop of `prompt +=` over `screens.forEach` yields the instructions, then the continuity block only when a previous session is given, then the screen header, the screen blocks in order, and the closing line. |
| Regenerate.AppendScreenBlocks | app/api/regenerate/route.ts:173-185 | The `screens.forEach` loop appends exactly the screen blocks, one per screen in input order, to what the prompt held before. |
| Regenerate.NoPreviousSessionPrompt | app/api/regenerate/route.ts:159-171 | Without a previous session no continuity block is added: the screen header follows the instructions directly. |
| Regenerate.ScreenBlockAt | app/api/regenerate/route.ts:173-185 | The block of screen `k`, numbered `k + 1`, sits in the prompt right after the blocks of the screens before it. |
| Regenerate.ValidateOne | app/api/regenerate/route.ts:265-291 | A null element, or one with a non-string or unknown `type`, is dropped. A question or next-step survives iff its `text` is a string and keeps only that text. A ranking survives iff `basis` is a string, `items` is an array and at least one item is valid. Its items are exactly the valid ones. Every survivor carries its own tag. |
| Regenerate.ValidItems | app/api/regenerate/route.ts:273-278 | The item filter keeps every item with string `entityTitle` and `reason`, keeps nothing else, and never lengthens the list; its order and multiplicities are fixed by `ValidItemsSingle` and `ValidItemsAppend`. |
| Regenerate.ValidItemsSingle | app/api/regenerate/route.ts:273-278 | A single item is kept exactly when it has string `entityTitle` and `reason`. |
| Regenerate.ValidItemsAppend | app/api/regenerate/route.ts:273-278 | The filter keeps order: filtering a concatenation concatenates the filtered parts, so with the single-item case the result is the valid items in input order, each as often as it occurs. |
| Regenerate.ValidItemsKeepsValid | app/api/regenerate/route.ts:273-278 | Filtering a list of valid items leaves it unchanged. |
| Regenerate.Validated | app/api/regenerate/route.ts:262-293 | The loop emits at most one suggestion per element, and every emitted suggestion is well formed (no ranking without items). |
| Regenerate.SurvivorsSpec | app/api/regenerate/route.ts:262-293 | The surviving positions are exactly the positions of accepted elements, in strictly increasing order. |
| Regenerate.ValidatedFollowsSurvivors | app/api/regenerate/route.ts:262-293 | The validated suggestions are an order-preserving subsequence: the k-th output is the conversion of the k-th surviving element. |
| Regenerate.ValidateSuggestions | app/api/regenerate/route.ts:262-293 | The validation loop pushes exactly the validated suggestions, and gives `[]` when `suggestions` is not an array. |
| Regenerate.ValidateEncoded | app/api/regenerate/route.ts:265-291 | Every well-formed suggestion passes validation of its own wire form unchanged. |
| Regenerate.ValidatedEncodeAll | app/api/regenerate/route.ts:262-293 | Round trip: validating the wire form of an emitted suggestion list gives the list back. |
| Regenerate.Normalise | app/api/regenerate/route.ts:296-303 | `sessionId` is the request's. A falsy summary becomes `''`, a falsy category `'other'`, non-array entities `[]`, and a falsy title `null`. Truthy values pass through. The suggestions are the validated ones. |
| Regenerate.NormaliseIdempotent | app/api/regenerate/route.ts:296-303 | A normalised response, fed back as the answer, normalises to itself. |
| Regenerate.FallbackIsEmptyAnswer | app/api/regenerate/route.ts:66-76 | The neutral response (`''`, `'other'`, `[]`, `null`, `[]`) is what an empty answer normalises to, and it is itself normalised. |
| Regenerate.AnalyzeSession | app/api/regenerate/route.ts:63-318 | No key, a thrown call, a non-ok status, empty text, unparsable text and a `null` answer all give the neutral response with the request's `sessionId`. Any other answer is normalised. Every result is normalised. |
| Regenerate.Post | app/api/regenerate/route.ts:320-390 | A falsy `sessionId` gives 400 first. Then missing, non-array or empty `screens` gives 400. Those are the only 400 cases. A body that is not JSON or is `null` gives the neutral response for `'unknown'`. Otherwise the analysis keeps the request's `sessionId`. |
| ChatRoute.BuildPrompt | app/api/chat/route.ts:34-123 | The `prompt +=` steps yield the head with the note and the quoted message, then the name, category and screenshot sections of a given context, then the response rules. |
| ChatRoute.AppendContext | app/api/chat/route.ts:78-96 | The `if (context)` steps append exactly the context section: the name line for a truthy name, the category line for a truthy category, the screenshot section for a non-empty list, in that order. |
| ChatRoute.AppendShotBlocks | app/api/chat/route.ts:87-94 | The `screenshots.forEach` loop appends exactly the screenshot blocks, one per screenshot in order, to what the prompt held before. |
| ChatRoute.ShotBlockAt | app/api/chat/route.ts:85-95 | Screenshots are listed in order with 1-based numbering: the block of screenshot `k` follows the blocks of those before it. |
| ChatRoute.EmptyContextAddsNothing | app/api/chat/route.ts:78-96 | A context with a falsy name, a falsy category and no screenshots adds nothing to the prompt. |
| ChatRoute.OcrLineSpec | app/api/chat/route.ts:90-93 | The OCR line is omitted for empty text. Otherwise it holds the text cut to 500 characters, with `'...'` exactly when the text was longer. |
| ChatRoute.StripMarker | app/api/chat/route.ts:167-168 | A global `replace` that only deletes: the result is a subsequence of the input (its characters, in their order, with some removed), hence no longer than it, and text without the marker's first character passes unchanged. |
| ChatRoute.StripMarkerAfterMarker | app/api/chat/route.ts:167-168 | An occurrence of the marker at the front is removed together with the one newline that follows it, and scanning resumes after them. |
| ChatRoute.StripAfterPlain | app/api/chat/route.ts:167-168 | Text before the first backtick cannot start a fence, so a pass copies it through unchanged and only the rest is rewritten. |
| ChatRoute.StripShorterThanMarker | app/api/chat/route.ts:167-168 | Text shorter than the marker holds no occurrence of it and passes unchanged. |
| ChatRoute.StripLeavesNoFence | app/api/chat/route.ts:168 | After the second `replace` no three consecutive backticks remain anywhere. |
| ChatRoute.CleanResponse | app/api/chat/route.ts:166-169 | The cleaned answer is no longer than the raw answer and contains no fence marker anywhere. |
| ChatRoute.CleanWithoutBackticks | app/api/chat/route.ts:166-169 | Text containing no backticks changes only by trimming. |
| ChatRoute.CleanFencedJson | app/api/chat/route.ts:166-169 | A JSON text fenced as a `json` code block comes out exactly as it went in. |
| ChatRoute.ValidateChat | app/api/chat/route.ts:175-182 | A result is accepted iff it is not `null`, `reply` is a string, `noteWasModified` is a boolean, and a modified note comes with a truthy `updatedNote`. An accepted result is returned unchanged. |
| ChatRoute.CallGemini | app/api/chat/route.ts:154-190 | A thrown call or a non-ok status fails. The answer text is cleaned and parsed, and a parse failure fails. Otherwise the result is the validation's. Every result passes the check. |
| ChatRoute.CallGeminiReadsFencedAnswer | app/api/chat/route.ts:166-172 | An answer fenced as a `json` block is parsed from exactly its inner text. |
| ChatRoute.FallbackIsValid | app/api/chat/route.ts:265-269 | The canned reply passes the route's own check, carries the current note and says the note was not modified. |
| ChatRoute.Post | app/api/chat/route.ts:201-282 | The checks run in order: missing key gives 500; invalid JSON 400; `sessionId`, then `userMessage`, must be non-empty strings (400); `currentNote` must be a string (400); a `null` body gives 500. A reply is sent iff all checks pass. It is the validated result, or the canned reply with the note unchanged when the call failed. |
| ChatRoute.AcceptedAnswerMayOmitNote | app/api/chat/route.ts:273 | An accepted answer without `updatedNote` goes out without it: the original note is not substituted. |
| AnalyzeRoute.StripDataUrlPrefix | app/api/analyze/route.ts:49-51 | Text without a comma passes unchanged. Otherwise the result is the segment between the first comma and the next comma or the end. |
| AnalyzeRoute.StripDataUrl | app/api/analyze/route.ts:49-51 | A data URL `header,payload` loses exactly its header. |
| AnalyzeRoute.StripIdempotent | app/api/analyze/route.ts:49-51 | Stripping a stripped image changes nothing. |
| AnalyzeRoute.EntityField | app/api/analyze/route.ts:132-136 | `parsed.entity?.<field> \|\| null`: the field's value when truthy, `null` otherwise (also when `entity` is missing or `null`), so always truthy or `null`. |
| AnalyzeRoute.Normalise | app/api/analyze/route.ts:130-141 | The entity's type is always `'hotel'`. Each of name, price, rating, location and url is the parsed value when truthy and `null` otherwise. `rawText` is the parsed value when truthy and `''` otherwise. |
| AnalyzeRoute.NormaliseIsNormalised | app/api/analyze/route.ts:130-141 | Every normalised analysis has the shape "each field truthy or its default". |
| AnalyzeRoute.NormaliseIdempotent | app/api/analyze/route.ts:130-141 | A normalised analysis, fed back as the answer, normalises to itself. |
| AnalyzeRoute.MockIsNormalised | app/api/analyze/route.ts:29-39 | The mock analysis has the normalised shape and is a fixed point of normalisation. |
| AnalyzeRoute.CallGemini | app/api/analyze/route.ts:41-143 | Without a key the result is the mock. Otherwise the stripped image goes to the service. A thrown call, a non-ok status, empty text, unparsable text or a `null` answer fails. Anything else is normalised. |
| AnalyzeRoute.Post | app/api/analyze/route.ts:145-166 | A falsy `image` gives 400 before any analysis. Every error, including a bad body, gives 500. A 200 answer is always normalised. |
| SessionMapper.Pick | app/app/page.tsx:18-21 | The snake_case value wins when truthy; otherwise the camelCase value is used. |
| SessionMapper.MapState | app/app/page.tsx:18-22 | Summary, category and title come from `Pick`. Falsy `entities` and `suggestions` become `[]`. |
| SessionMapper.MapSession | app/app/page.tsx:9-25 | `id`, `name` and `description` are copied; `created_at` and `updated_at` are renamed. A falsy `screenshot_count` becomes 0. A falsy `regenerate_state` becomes `null`. Only a `null` element throws. |
| SessionMapper.MapAll | app/app/page.tsx:53 | The array is mapped element by element, keeping length and order. The map fails iff some element is `null`. |
| SessionMapper.MapSessions | app/app/page.tsx:52-54 | A non-array response gives no sessions. An array is mapped element by element. |
| SessionMapper.NamingDoesNotMatter | app/app/page.tsx:18-21 | A state written in snake_case and the same state written in camelCase map alike. |
| SessionCardList.DisplayDescription | components/SessionCardList.tsx:26-29 | A truthy description is shown verbatim. Otherwise a non-empty summary is truncated to 120 characters (at most 123). Otherwise `'No description'`. The text is never empty. |
| SessionCardList.SummaryDescriptionIsPrefix | components/SessionCardList.tsx:28 | A summary shown on a card is its first 120 characters, followed by `'...'` exactly when something was cut. |
| SessionCardList.CategoryBadge | components/SessionCardList.tsx:43-45 | The badge is shown iff the category is truthy. Its label replaces only the first `'-'` with a space. |
| SessionCardList.CategoryLabelOfWords | components/SessionCardList.tsx:45 | `first-rest` is labelled `first rest`, and any later `'-'` is kept. |
| SessionCardList.CardBadge | components/SessionCardList.tsx:43-45 | A card shows a badge iff it has a state whose category is truthy, and the badge carries the category label. |
| SessionCardList.ScreenshotWord | components/SessionCardList.tsx:61 | The word is "screenshot" iff the count is 1, and "screenshots" otherwise. |
| SessionSuggestionsPanel.Group | components/SessionSuggestionsPanel.tsx:21-23 | A group holds exactly the suggestions with its tag. |
| SessionSuggestionsPanel.GroupCount | components/SessionSuggestionsPanel.tsx:21-23 | A group holds each suggestion of its tag as often as the list does, and no other. |
| SessionSuggestionsPanel.GroupAppend | components/SessionSuggestionsPanel.tsx:21-23 | Filtering is order-preserving: the group of a concatenation is the concatenation of the groups. |
| SessionSuggestionsPanel.GroupsPartition | components/SessionSuggestionsPanel.tsx:21-23 | The three groups are pairwise disjoint. Their multisets add up to the suggestion list, and their sizes to its length. |
| SessionSuggestionsPanel.NumberedRows | components/SessionSuggestionsPanel.tsx:71-74 | Ranking rows are numbered 1..n in input order, and each shows its item's title and reason. |
| SessionSuggestionsPanel.Panel | components/SessionSuggestionsPanel.tsx:14-16 | Nothing is rendered iff the state is missing or has no suggestions. |
| SessionSuggestionsPanel.PanelQuestions | components/SessionSuggestionsPanel.tsx:36-53 | The question section lists the texts of the question group, in order. |
| SessionSuggestionsPanel.PanelRankings | components/SessionSuggestionsPanel.tsx:59-84 | The ranking section shows each ranking of the group, in order, with its basis and rows numbered from 1. |
| SessionSuggestionsPanel.PanelNextSteps | components/SessionSuggestionsPanel.tsx:90-105 | The next-step section lists the texts of the next-step group, in order. |
| SessionSuggestionsPanel.ShownPanelHasASection | components/SessionSuggestionsPanel.tsx:14-23 | A rendered panel has at least one non-empty section. |
| SessionSuggestionsPanel.QuestionClick | components/SessionSuggestionsPanel.tsx:44 | Only a question button calls back, and it passes exactly that question's text. |
| SessionSummaryPanel.DisplayTitle | components/SessionSummaryPanel.tsx:12 | The title is the suggested title when truthy, otherwise the session name. |
| SessionSummaryPanel.ShowOriginalName | components/SessionSummaryPanel.tsx:13-14 | The original name is shown iff a truthy suggested title differs from the name. |
| SessionSummaryPanel.OriginalNameShownIffRenamed | components/SessionSummaryPanel.tsx:12-14 | The original name is shown iff the displayed title is not the session name. |
| SessionSummaryPanel.Badge | components/SessionSummaryPanel.tsx:22-24 | The badge is shown only for a state with a truthy category, labelled by the card list's rule. |
| SessionSummaryPanel.EntityCountLabel | components/SessionSummaryPanel.tsx:48-55 | There is no line for 0 entities. Otherwise the line gives the count, with "entity" for 1 and "entities" for any other count. |
| SessionSummaryPanel.Section | components/SessionSummaryPanel.tsx:35-70 | Without a state the placeholder is shown. Otherwise the summary text is shown, with an entity line iff there are entities. |
| SessionScreenshotCarousel.MovesStayInRange | components/SessionScreenshotCarousel.tsx:28-34 | Both moves keep an index in `[0, n)`, and each undoes the other. |
| SessionScreenshotCarousel.NextTimesWraps | components/SessionScreenshotCarousel.tsx:32-34 | `k <= n` calls of `goToNext` move the index to `(i + k) mod n`. |
| SessionScreenshotCarousel.FullCycle | components/SessionScreenshotCarousel.tsx:32-34 | `n` calls of `goToNext` return to the start. |
| SessionScreenshotCarousel.Carousel.constructor | components/SessionScreenshotCarousel.tsx:11-13 | The carousel starts at the first screenshot, expanded, with the modal closed. |
| SessionScreenshotCarousel.Carousel.GoToPrevious | components/SessionScreenshotCarousel.tsx:28-30 | 0 maps to `n - 1`, otherwise the index goes down by one. The flags are unchanged and the index stays valid. |
| SessionScreenshotCarousel.Carousel.GoToNext | components/SessionScreenshotCarousel.tsx:32-34 | `n - 1` maps to 0, otherwise the index goes up by one. The flags are unchanged and the index stays valid. |
| SessionScreenshotCarousel.Carousel.SelectThumbnail | components/SessionScreenshotCarousel.tsx:122-124 | Selecting thumbnail `k` sets the index to `k` and expands the carousel. |
| SessionScreenshotCarousel.Carousel.ToggleExpanded | components/SessionScreenshotCarousel.tsx:50 | The collapse button flips the expanded flag only. |
| SessionScreenshotCarousel.Carousel.OpenModal | components/SessionScreenshotCarousel.tsx:81 | A click on the image opens the modal and changes nothing else. |
| SessionScreenshotCarousel.Carousel.CloseModal | components/SessionScreenshotCarousel.tsx:148 | The close button closes the modal and changes nothing else. |
| SessionScreenshotCarousel.Carousel.Counter | components/SessionScreenshotCarousel.tsx:15-47 | An empty list shows the empty state without reading an index. Otherwise the counter reads `index + 1` of `n`, with `index + 1` in `1..n`. |
| SessionChatPanel.ExtractAnswer | components/SessionChatPanel.tsx:89-96 | The answer is `data.answer \|\| data.response \|\| 'No answer provided'`, which is always truthy. An unparsable or `null` body becomes its first 500 characters. |
| SessionChatPanel.AssistantContent | components/SessionChatPanel.tsx:84-118 | A thrown request or a non-ok status gives the fixed apology. Otherwise it gives the extracted answer. |
| SessionChatPanel.ErrorOf | components/SessionChatPanel.tsx:84-86 | An error is set iff the exchange threw or the status was not ok. |
| SessionChatPanel.AlternatingSnoc | components/SessionChatPanel.tsx:62 | Appending the role due next keeps the log alternating. |
| SessionChatPanel.AlternatingAppendPair | components/SessionChatPanel.tsx:62-118 | A question followed by its answer keeps an alternating, even-length log alternating and even. |
| SessionChatPanel.ChatPanel.constructor | components/SessionChatPanel.tsx:21-24 | The panel starts with no messages, empty input, not loading and no error. |
| SessionChatPanel.ChatPanel.SetInput | components/SessionChatPanel.tsx:209 | Typing changes only the input. |
| SessionChatPanel.ChatPanel.Prefill | components/SessionChatPanel.tsx:33-37 | A truthy suggestion question pre-fills the input. Nothing else changes. |
| SessionChatPanel.ChatPanel.BeginSend | components/SessionChatPanel.tsx:50-65 | Input that is empty after trimming does nothing. Otherwise one user message with the trimmed input is appended, and the input is cleared, loading is set and the error is cleared. |
| SessionChatPanel.ChatPanel.FinishSend | components/SessionChatPanel.tsx:84-121 | Exactly one assistant message is appended and earlier messages are unchanged. The error is set on failure, and loading ends. |
| SessionChatPanel.ChatPanel.Send | components/SessionChatPanel.tsx:49-121 | A send appends the trimmed question and then its answer to the unchanged log, or does nothing for blank input. It ends not loading, with roles still alternating. |

## Left out

- Prompt wording: the instruction texts of the regeneration and chat prompts are abbreviated to constants. Their structure, the order of the parts and the data they interpolate are modelled.
- Network calls: the outbound `fetch` and the extraction of `candidates[0].content.parts[0].text` become the `Outcome` parameter. A missing text is `Answered("")`.
- `JSON.parse` and `JSON.stringify`: these become parameters. `JSON.stringify(entities, null, 2)` in the regeneration prompt is an opaque serialiser.
- `process.env.GEMINI_API_KEY`: passed in as an optional string.
- Framework plumbing: CORS headers, `NextResponse`, the `OPTIONS` handler and console logging are not modelled.
- Request fields the routes do not check (the screens' analyses, the previous session, the chat context) take their declared TypeScript shapes. A caller that sends other shapes is not modelled.
- AnalyzeRoute.CallGemini: a truthy non-string `image` is modelled as a `TypeError`. JavaScript arrays do have `includes`, and an array image without a comma element would reach the service; that case is not modelled.
- Text: strings are sequences of characters. UTF-16 code units and surrogate pairs are not distinguished, so `slice`/`substring` lengths count characters.
- Json.Get: property reads see only an object's own fields. Keys inherited from the prototype chain are not modelled.
- SessionChatPanel.ChatPanel: message ids, timestamps, auto-scroll and the commented-out history loading are not modelled. `handleSend` is split into its synchronous first half and the state update after the exchange. Other events interleaving during the `await` are not modelled. While a send is in flight, the input is disabled.
- SessionChatPanel.ErrorOf: the message of a thrown error is an input. The browser's own error texts are not modelled.
- SessionScreenshotCarousel.Carousel: the screenshot count is fixed for the life of the component. A list that changes length while the index points past its new end is not modelled.
- AnalyzeRoute.Post: the `details` text of a 500 reply is represented by the error's cause, not its message string.
- ChatRoute.CallGemini: the parser passed in is assumed to reject empty text, as `JSON.parse` does; a blank or fence-only answer then fails. The model does not impose this on the parameter.
- SessionChatPanel.ExtractAnswer: the same holds for its parser. An empty body, which `JSON.parse` rejects, falls back to its first 500 characters, that is the empty text; the model does not impose the rejection on the parameter.
- ChatRoute.StripMarker: the regular-expression `replace` is modelled as the equivalent left-to-right scan, not through a regular-expression engine.
- Rendering: JSX markup, styles, dates (`toLocaleDateString`), links and animations are not modelled. Only the texts and the visibility the components compute are modelled.
- `lib/types.ts` types are mirrored as datatypes. The session detail page, the per-session regenerate proxy and the global carousel are not part of this model.
