# Appliance Aid — a Dafny model of its wizard and service adapter

Appliance Aid is a single-page form flow. The user picks an appliance, describes a fault (optionally with a photo), gets a diagnosis written by a hosted generative-AI model and rendered line by line as simple Markdown, and can then ask for nearby repair technicians. The technicians come from the same service with Maps grounding, and the list can be filtered and sorted.

This project models the parts of that flow that are the application's own logic:

- `AppState` holds the `App` component of App.tsx. Its seven state fields are modelled by the `State` datatype. The four handlers and the two setters form the `Next` transition over `Event`s; each asynchronous handler is split into its synchronous start and the completion events of its awaited calls. `renderStep` is `View`. The class `App` keeps the same seven fields, and each of its methods is proved to follow `Next` and to keep the invariant "an appliance is chosen on every step after the first".
- `Markdown` models `renderMarkdown`: one `Block` per `'\n'`-separated line (heading of level 1–3, numbered list item, line break, paragraph).
- `Technicians` models `filteredAndSortedTechnicians`: a case-insensitive substring filter over name or address, then an in-place insertion sort of an array by name.
- `Gemini` models services/geminiService.ts without the network: the API-key guard, the diagnosis request and its parts, the Maps-grounded search request and its prompt, fence stripping, extraction of places from the grounding chunks, and the merge of places into technicians.
- `Text` models the JavaScript string operations these rely on: `trim`, with the exact ECMAScript white-space set; `\s` and `\d`; `toLowerCase` on ASCII; `includes`; `startsWith`; `endsWith`; `split` and `join`.
- `Types` holds the records and enumerations of types.ts and the appliance table of constants.tsx.

The service calls, `JSON.parse`, the geolocation request, the file reader and the environment variable are parameters. That means a `Call` happened (`Returned(value)` or `Threw`), a parser `string -> Option<seq<Technician>>`, the outcome of each awaited call as an event, and `apiKey: Option<string>`.

The source and the intended behaviour differ in two places, both described under "## Findings". The class `App` follows the corrected transition `Next`. The transition exactly as written is `NextAsWritten`.

## Model

| member | source | states |
|---|---|---|
| Text.Trim | App.tsx:150 | `trim()` gives a result no longer than its input that neither starts nor ends with white space |
| Text.TrimIsSlice | App.tsx:150 | `trim()` returns a contiguous slice of its input that neither starts nor ends with white space, and every character it removes is white space |
| Text.TrimEmptyIffAllSpace | App.tsx:150 | `line.trim() === ''` holds exactly when every character of the line is ECMAScript white space |
| Text.TrimIdempotent | services/geminiService.ts:108 | trimming an already trimmed reply changes nothing |
| Text.ToLower | App.tsx:325-326 | lower-casing keeps the length and maps each character at its own position |
| Text.ToLowerIdempotent | App.tsx:325-326 | lower-casing leaves no upper-case ASCII letter and is idempotent |
| Text.Contains | App.tsx:325-326 | `includes` never finds a needle longer than the haystack, and always finds the empty string |
| Text.ContainsIffOccurs | App.tsx:325-326 | `includes` is true exactly when the needle occurs at some position of the haystack |
| Text.Split | App.tsx:144 | `split('\n')` yields one piece more than there are separators, and no piece contains the separator |
| Text.JoinSplit | App.tsx:144 | joining the pieces of a split with the separator gives back the original text |
| Text.SplitJoin | App.tsx:144 | splitting a join of separator-free lines gives back exactly those lines |
| Markdown.LeadingDigits | App.tsx:149 | the leading run of `\d` characters: all digits, followed by a non-digit or the end |
| Markdown.ListMarkerIffMatch | App.tsx:149 | the list test accepts a line exactly when `/^\d+\.\s/` matches it with some number of digits |
| Markdown.ListMarkerAtUnique | App.tsx:149 | the regular expression can only match with the whole leading run of digits |
| Markdown.MarkerFirstCharacters | App.tsx:146-149 | the first characters of a line that starts with each heading marker or a list marker |
| Markdown.MarkersExclusive | App.tsx:146-149 | "### ", "## " and "# " exclude one another, and no heading or list line is blank |
| Markdown.Classify | App.tsx:146-151 | a heading has level 1 to 3 and its text is the line after the marker; list items and paragraphs keep the line; a line break is produced exactly for lines of white space only |
| Markdown.ClassifyKinds | App.tsx:146-151 | each kind of block is produced for exactly the lines of its shape: level 3 iff "### ", level 2 iff "## ", level 1 iff "# ", list item iff the list marker, break iff all white space, paragraph otherwise |
| Markdown.ClassifyLossless | App.tsx:146-151 | heading levels are 1 to 3, and every non-blank line is rebuilt from its block (only the heading marker is dropped; list items and paragraphs are verbatim) |
| Markdown.HeadingMarker | App.tsx:146-148 | a level-n heading marker is n `#` characters followed by a space |
| Markdown.RenderMarkdown | App.tsx:142-152 | one block per `'\n'`-separated line |
| Markdown.RenderMarkdownPerLine | App.tsx:142-152 | for text made of lines joined by `'\n'`, block i is the classification of line i, and there are exactly as many blocks as lines |
| Technicians.MatchesQuery | App.tsx:324-327 | the empty query matches every technician, and so does the technician's own name or address in any mix of case |
| Technicians.FilterTechnicians | App.tsx:324-327 | the result keeps each technician exactly as often as it occurs when its lower-cased name or address includes the lower-cased query, and drops it otherwise |
| Technicians.FilterIsSubsequence | App.tsx:324-327 | the filter keeps the relative order of the technicians it keeps |
| Technicians.FilterEmptyQuery | App.tsx:324-327 | an empty filter text keeps every technician |
| Technicians.LexTotal | App.tsx:330 | any two names are comparable in the name order |
| Technicians.LexTransitive | App.tsx:330 | the name order is transitive |
| Technicians.LexAntisymmetric | App.tsx:330 | names that compare both ways are equal |
| Technicians.InsertingSwap | App.tsx:330 | swapping an element with a greater left neighbour keeps the insertion-sort invariant one place further left |
| Technicians.InsertingDone | App.tsx:330 | once the left neighbour is no greater, the sorted prefix has grown by one |
| Technicians.SortByName | App.tsx:330 | sorting in place leaves the array ordered by name and a permutation of what it held |
| Technicians.FilteredAndSorted | App.tsx:323-334 | with `DEFAULT` the filtered list in its original order; with `NAME_AZ` a permutation of it ordered by name |
| Gemini.FileToGenerativePart | services/geminiService.ts:4-11 | the base64 data and MIME type reach `inlineData.data` and `inlineData.mimeType` unchanged |
| Gemini.TextPrompt | services/geminiService.ts:35 | the text part is the fixed sentence naming the appliance followed by the description, unaltered |
| Gemini.BuildParts | services/geminiService.ts:37-42 | without an image the parts are exactly the text part; with one there are two, the image part first and the text part second |
| Gemini.DiagnoseAppliance | services/geminiService.ts:13-57 | without a key no request is made and the key error is returned; otherwise the request uses the model name and the parts above, and the result is the reply's text or, when the call throws, the fixed diagnosis error |
| Gemini.GroundingChunks | services/geminiService.ts:100 | missing candidates, no first candidate, missing metadata or missing chunks give no chunks; when every link is present, exactly the first candidate's chunks |
| Gemini.PlaceDetails | services/geminiService.ts:101-106 | every place comes from a chunk carrying Maps data with that title and uri, and there are no more places than chunks |
| Gemini.PlaceDetailsAppend | services/geminiService.ts:101-106 | places are extracted chunk by chunk, so their order is the chunks' order |
| Gemini.PlaceDetailsSingle | services/geminiService.ts:101-106 | a chunk gives its `{title, uri}` when it has Maps data and nothing otherwise |
| Gemini.StripFence | services/geminiService.ts:108 | the result is no longer than the trimmed reply; nothing is cut from its front unless it opens with "```json", and nothing from its end unless it closes with "```" |
| Gemini.StripFenceOfFenced | services/geminiService.ts:108 | stripping removes exactly a leading "```json" and a trailing "```" put around a body |
| Gemini.StripFenceUnfenced | services/geminiService.ts:108 | a trimmed reply with neither marker is returned unchanged |
| Gemini.StripFenceOneSided | services/geminiService.ts:108 | with only the leading marker only it is removed; with only the trailing marker only it is removed |
| Gemini.FirstMatchingPlace | services/geminiService.ts:112 | a place found is one of the places and matches the name (either includes the other); none is found exactly when no place matches |
| Gemini.FirstMatchingPlaceIsFirst | services/geminiService.ts:112 | the place found is the first match in list order |
| Gemini.MergeOne | services/geminiService.ts:112-116 | one technician keeps name, address and phone; `mapsUrl` is set exactly when some place matches, and then to the uri of the first matching place in list order |
| Gemini.MergePlaces | services/geminiService.ts:111-117 | same length and order; name, address and phone unchanged; `mapsUrl` set exactly when some place matches, to the uri of the first matching place, and cleared otherwise whatever it held before |
| Gemini.SearchPrompt | services/geminiService.ts:71-84 | the search prompt is the fixed lead, the appliance name verbatim, then the fixed instructions asking for a bare JSON array |
| Gemini.FindNearbyTechnicians | services/geminiService.ts:60-125 | without a key, no request and the key error; otherwise the request names the model, the search prompt, the Maps tool and the user's location; an exception from the call or the parse gives the fixed search error; a parsed fence-stripped reply gives success with the list merged with the places of its grounding chunks |
| AppState.Initial | App.tsx:243-249 | the wizard starts on the appliance grid with no appliance, no technicians and no error, and the invariant holds |
| AppState.ErrorText | App.tsx:277 | a non-empty thrown message is shown as is; an absent or empty one gives the fallback text |
| AppState.NextAsWritten | App.tsx:252-321 | only selecting or starting over changes the appliance, only a successful diagnosis the diagnosis text, only a search with results the technician list, only "Start Over" returns to the grid, and every error set is non-empty |
| AppState.Next | App.tsx:252-321 | every transition of the corrected handlers keeps an appliance chosen on every step after the first |
| AppState.RunAgreesWhenCurrent | App.tsx:252-321 | along any sequence of events in which no completion is stale, the corrected handlers reach the same state as the handlers as written |
| AppState.RunKeepsApplianceChosen | App.tsx:252-321 | after any sequence of events an appliance is chosen on every step after the first |
| AppState.SubmitStartedEffect | App.tsx:257-260 | submitting does nothing without an appliance; otherwise it enters the diagnosing step with the error cleared and nothing else changed |
| AppState.DiagnosisSettledEffect | App.tsx:262-279 | a diagnosis success shows the diagnosis and stores it; a failure returns to the form with a non-empty error and the diagnosis unchanged |
| AppState.SearchStartedEffect | App.tsx:282-286 | a search does nothing without an appliance; otherwise it enters the searching step with the error cleared and nothing else changed |
| AppState.SearchSettledEffect | App.tsx:288-310 | a non-empty result list is shown and stored; an empty list, a search error or a location failure return to the diagnosis with a non-empty error and the technicians unchanged |
| AppState.ResetRestoresInitial | App.tsx:313-321 | "Start Over" restores every field's initial value from any state, is idempotent, and restores the invariant |
| AppState.View | App.tsx:336-366 | `renderStep` renders nothing exactly on the form or list step without a selected appliance; the diagnosis screen has one block per line of the diagnosis |
| AppState.ReachableScreensNeverNothing | App.tsx:336-366 | with stale completions dropped, no sequence of events reaches a step that renders nothing |
| AppState.StaleDiagnosisFailureShowsNothing | App.tsx:262-279 | as written: select, submit, "Start Over" (visible while diagnosing), then a failing diagnosis leaves a describe step that renders nothing |
| AppState.StaleSearchShowsNothing | App.tsx:288-299 | as written: a search succeeding after "Start Over" leaves a list step that renders nothing |
| AppState.FormSubmits | App.tsx:77-82 | the form submits exactly when the description has a character that is not white space |
| AppState.DataUrlPayload | App.tsx:13 | a payload is taken exactly when the URL has a comma, and it contains no comma |
| AppState.DataUrlPayloadOf | App.tsx:13 | the payload taken from a `data:` URL is the text after its comma, and a URL without a comma gives none |
| AppState.App.constructor | App.tsx:243-249 | the fields start at their initial values |
| AppState.App.HandleApplianceSelect | App.tsx:252-255 | stores the appliance and moves to the describe step |
| AppState.App.HandleFormSubmit | App.tsx:257-273 | follows the submit transition and returns the appliance name, description and image it passes to the diagnosis call, or no call without an appliance |
| AppState.App.HandleDiagnosisSettled | App.tsx:262-279 | follows the diagnosis completion, ignoring it when stale |
| AppState.App.HandleFindTechnician | App.tsx:282-292 | follows the search transition and returns the appliance name the search uses, or none without an appliance |
| AppState.App.HandleLocationFailed | App.tsx:305-309 | follows the location-failure completion, ignoring it when stale |
| AppState.App.HandleSearchSettled | App.tsx:289-303 | follows the search completion, ignoring it when stale |
| AppState.App.HandleReset | App.tsx:313-321 | restores the initial state |
| AppState.App.ShownTechnicians | App.tsx:323-334 | the list the technician screen shows, from the current fields: the filtered technicians in the order received, or a permutation of them sorted by name |
| AppState.App.SetFilterQuery | App.tsx:357 | changes the filter text and nothing else |
| AppState.App.SetSortOption | App.tsx:359 | changes the sort option and nothing else |

## Findings

| source | as written | input that shows it | evidently intended | confidence | as-written member | corrected member |
|---|---|---|---|---|---|---|
| App.tsx:262-279 | the diagnosis completion sets the step even after "Start Over" (shown whenever the step is not the first) cleared the appliance | select an appliance, submit, press "Start Over" while diagnosing, then the diagnosis call fails: the describe step has no appliance and `renderStep` returns null (App.tsx:344) | a completion that arrives after the user started over is dropped, so an appliance is chosen on every later step | not executed; high (follows from the handlers' code) | AppState.StaleDiagnosisFailureShowsNothing | AppState.ReachableScreensNeverNothing |
| App.tsx:288-303 | the search completion sets the step even after "Start Over" cleared the appliance | select, submit, diagnosis succeeds, find technicians, press "Start Over" while searching, then the search returns one technician: the list step has no appliance and `renderStep` returns null (App.tsx:362) | the same: a stale completion is dropped | not executed; high (follows from the handlers' code) | AppState.StaleSearchShowsNothing | AppState.RunKeepsApplianceChosen |

The correction keys staleness on the step. A completion counts only while the step is still the one its call started. That is enough for the invariant. It does not tell two calls apart if the user starts over, picks again and resubmits while the first call is still pending.

## Left out

- Rendering: all JSX, styling, `Header`, `ApplianceGrid`, `LoadingView`, the markup of `TechnicianList`, and components/Icons.tsx. `View` gives only which screen is shown and its inputs. The diagnosis screen's content is the `Block` list.
- AppState.View: the `TechnicianList` screen carries the appliance name, the filter text and the sort option but not the `technicians` prop. That list is computed by `AppState.App.ShownTechnicians`, a method, which a function cannot call.
- The calls the code cannot see into are parameters: `generateContent`, `JSON.parse`, `navigator.geolocation`, `FileReader`, `URL.createObjectURL` and `process.env`. `console.error` is left out.
- The diagnosis request's system instruction is left out. It is a fixed text with no inputs that the model never inspects.
- Gemini.Location: the coordinates are modelled as real numbers rather than floating-point numbers. They are only passed on into the request.
- Gemini.FindNearbyTechnicians: the parser returns `None` for any reply that is not an array of technician records, and `Some` only with complete records. In the source, `JSON.parse` can also give records that lack fields. A record without `name` makes `tech.name.includes` throw only when `placeDetails` is non-empty, because `find` on an empty list never calls its predicate; the merge then fails with the fixed search error. When there are no places, such a record and a record without `address` come back as a success. The model cannot express those records and so does not describe these cases. A `title` or `uri` missing from Maps data is not modelled either.
- Gemini.DiagnoseAppliance: a reply without `text` is not modelled.
- AppState.App.HandleFormSubmit: `toBase64` runs after the step change and can reject. That rejection is modelled as a `DiagnosisSettled(Failure(None))` event, because a FileReader error carries no message. The image arrives already converted.
- Text.ToLower: it lower-cases only the ASCII letters, not the full Unicode case mapping of `toLowerCase`.
- Technicians.LexLeq: it orders by code points, not by the locale-sensitive `localeCompare`.
- Technicians.SortByName: it does not state that the sort is stable, though the insertion sort used is.
- Async interleaving is not modelled as concurrency. Each settled call is one event and may arrive at any point in a `Run`. React's `useCallback` and `useMemo` memoisation is left out.
