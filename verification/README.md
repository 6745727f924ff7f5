# chat-ui in Dafny

A model of the embeddable chat widget's controller and of its JSON request
helper, with proofs of what they do.

- `ChatUI` (chat_ui.dfy) models the `ChatUI` class of src/index.ts:
  - the constructor's defaulting of the options;
  - the conversation state: the history, the typing flag and the error text;
  - `renderMessages`, modelled as a function from state to a described view. The view holds one item per message, then the typing indicator and the error notice, plus the first-message mode and the placeholder;
  - `addMessage`;
  - `onSubmit`, including JavaScript's `String.prototype.trim`;
  - `sendMessage`, split into the part before the request (`Begin`), the request it posts (`PostHistory`) and the part after it settles (`Settle`).
- `FetchJson` (fetch_json.dfy) models `fetchJson` of src/fetch-json.ts:
  - how the request headers are assembled. Header names are case-insensitive and the last `set` wins;
  - how the request body is chosen;
  - the content-type test `/application\/.*json/`, modelled exactly as the regular expression. The test is case-sensitive, and `.` does not match a line terminator;
  - the classification of a response, in the code's order: 204 first, then the content type, then parsing, then the ok range.
- `JsText` (js_text.dfy) holds the JavaScript string semantics the two need:
  - the WhiteSpace and LineTerminator character sets that `trim` strips;
  - ASCII lower-casing of header names;
  - the line terminators that the regular expression's `.` excludes.
- `FetchJsonProperties` and `ChatUIProperties` hold the lemmas that relate several calls:
  - the rendered view reads back as the history;
  - invariants of any run of complete cycles;
  - what overlapping submits do;
  - end-to-end scenarios.

The network is an input. A request cycle is given the `Exchange` it settles with:
- `NetworkError`: `fetch` rejects;
- a `Response`: a status, a content-type header, and the parsed body (`None` when `response.json()` rejects).

The markdown renderer is kept symbolic: a SYSTEM turn is drawn as `Markdown(source)`, a USER turn as `Literal(text)`.

## Behaviour of the code worth knowing

- The typing flag does not gate submits. A second submit while a reply is awaited starts a second request. `NoInFlightGate`, `OverlappingSubmits` and `OverlappingReplies` state what follows from that.
- A successful reply does not clear an earlier error: `Settle` keeps the error, and `ErrorOutlivesSuccess` shows it still drawn after a success.
- `fetchJson` parses the body before it checks the status. A JSON response whose body does not parse therefore fails as `Unparsable`, whatever its status other than 204.
- `sendMessage` does not validate its text. Only `onSubmit` discards drafts that trim to nothing.
- There is no multi-line input, no Enter/Shift+Enter handling and no input auto-sizing in the code, so none is modelled.

## Model

| member | source | states |
|---|---|---|
| ChatUI.Or | src/index.ts:52-56 | JavaScript's `or` on an optional string: the option when it is present and non-empty, else the fallback; the result is non-empty exactly when the option is given or the fallback is non-empty |
| ChatUI.Configure | src/index.ts:52-56 | each option replaces its default ("Type a message...", "System", "You") only when non-empty; the follow-up placeholder falls back first to the placeholder option, then to "Type a follow up..."; every configured text is non-empty |
| ChatUIProperties.ConfigureIdempotent | src/index.ts:52-56 | passing a configuration back in as options reproduces it: one pass of defaulting leaves nothing to default |
| ChatUIProperties.ConfigureDefaults | src/index.ts:52-56 | with no options, the texts are "Type a message...", "Type a follow up...", "System" and "You" |
| ChatUIProperties.FollowUpFallsBackToPlaceholder | src/index.ts:53-54 | with only a placeholder given, the follow-up placeholder is that placeholder |
| ChatUI.TurnItem | src/index.ts:89-109 | a message is drawn under its role's display name, marked up exactly when it is a SYSTEM message, and carries the message's text |
| ChatUI.TurnItems | src/index.ts:88-110 | one item per message of the history, in order, each depicting its message |
| ChatUI.Render | src/index.ts:81-134 | the view lists the messages in order, then the "..." indicator exactly when typing, then the error notice last exactly when the error is non-empty, and no turn after the messages; it is in first-message mode exactly when the history is empty, and the placeholder follows that mode |
| ChatUI.AddMessage | src/index.ts:136-138 | the message is appended at the end of the history; the typing flag and the error are untouched |
| ChatUI.ReplyText | src/index.ts:161-171 | a reply text exists exactly when the response is not 204, has a JSON content type, an ok status, a parsable body, and a non-empty `output`; the text is that `output` |
| ChatUI.Begin | src/index.ts:157-158 | the user's turn is appended and the typing flag raised; the error is kept |
| ChatUI.PostHistory | src/index.ts:161-167 | the request is a POST to the configured URL, carries the whole history as `{ messages }`, and has exactly the header content-type: application/json |
| ChatUI.Settle | src/index.ts:169-181 | the typing flag drops; a usable reply is appended as a SYSTEM turn and the error is left as it was; otherwise the history is unchanged and the error becomes "Failed to send message. Please try again." |
| ChatUI.SendMessage | src/index.ts:156-182 | while pending, the history has the user's turn appended and the typing flag is up; the request is the one `PostHistory` builds from that history, so it carries it as body and content-type: application/json as its only header; once settled, the history has the user turn and the reply, or only the user turn with the failure text set |
| ChatUI.OnSubmit | src/index.ts:143-154 | a draft that trims to nothing starts no cycle and stays in the input; any other draft clears the input and sends its trimmed text, which is non-empty |
| JsText.TrimStart | src/index.ts:146 | the result is a suffix of the input; everything removed is WhiteSpace or LineTerminator; the result does not start with one |
| JsText.TrimEnd | src/index.ts:146 | the result is a prefix of the input; everything removed is WhiteSpace or LineTerminator; the result does not end with one |
| JsText.Trim | src/index.ts:146 | the result is a contiguous part of the input framed only by whitespace and line terminators, with neither at its ends; it is empty exactly when the input is all such characters |
| JsText.TrimKeepsUnpadded | src/index.ts:146 | a string with no whitespace or line terminator at either end trims to itself |
| JsText.TrimIdempotent | src/index.ts:146 | trimming twice is trimming once |
| JsText.LowerChar | src/fetch-json.ts:14 | each of A-Z maps to the letter at the same place in a-z; every other character is kept; no result is an upper-case ASCII letter |
| JsText.LowerAscii | src/fetch-json.ts:14 | a header name is lower-cased character by character, with only ASCII letters changed |
| FetchJson.SetHeader | src/fetch-json.ts:14 | `Headers.set` replaces the value of the header whose name matches case-insensitively, keyed here by the lower-cased name, and leaves every other name as it was |
| FetchJson.SetAll | src/fetch-json.ts:17-21 | after setting every caller entry in order, the names present are the old ones plus the entries' lower-cased names; the last entry of each name gives its value; names no entry mentions keep theirs |
| FetchJson.RequestHeaders | src/fetch-json.ts:11-21 | content-type is sent exactly when there is a body or the caller names it in any case; with a body and no caller content-type it is application/json; each caller header name carries its last entry's value |
| FetchJson.BuildRequest | src/fetch-json.ts:11-27 | URL and method pass through; the body is absent exactly when none is given, and otherwise it is the given value serialised; the headers are those above |
| FetchJson.MatchesJsonCorrect | src/fetch-json.ts:34 | the executable scan agrees with the regular expression's meaning: some "application/" is followed, with no line terminator between, by "json" |
| FetchJson.MatchesJson | src/fetch-json.ts:34 | the test succeeds exactly when "application/" occurs and "json" follows it with no line terminator between them |
| FetchJson.IsJson | src/fetch-json.ts:33-34 | a missing or empty content-type header is not JSON; any other is JSON exactly when it matches the pattern |
| FetchJson.Classify | src/fetch-json.ts:29-47 | 204 gives null whatever else holds; otherwise a non-JSON content type fails; otherwise an unparsable body fails; otherwise a status outside 200-299 fails with that status; otherwise the parsed body is returned unchanged |
| FetchJson.UnparsedBodyIgnored | src/fetch-json.ts:29-38 | a 204 or non-JSON response is classified without reading its body |
| FetchJsonProperties.NoBodyNoHeaders | src/fetch-json.ts:11-21 | with no body and no caller headers, no header is sent |
| FetchJsonProperties.CallerContentTypeWins | src/fetch-json.ts:13-21 | a caller Content-Type, in any ASCII case, replaces the application/json default and is the only header |
| FetchJsonProperties.UpperCaseContentTypeWins | src/fetch-json.ts:13-21 | "CONTENT-TYPE: text/plain" overrides the default |
| FetchJsonProperties.LaterCaseVariantWins | src/fetch-json.ts:17-21 | "X-Token" then "x-token" is one header carrying the later value |
| FetchJsonProperties.NoContentFirst | src/fetch-json.ts:29-31 | 204 is null whatever the content type and body |
| FetchJsonProperties.ContentTypeBeforeStatus | src/fetch-json.ts:33-38 | an HTML, missing or empty content type fails as non-JSON for any status but 204 |
| FetchJsonProperties.JsonByStatus | src/fetch-json.ts:42-47 | JSON with status 500 or 300 is an HTTP failure carrying the status; with 200 or 299 it is the body |
| FetchJsonProperties.JsonVariants | src/fetch-json.ts:34 | application/problem+json and application/json with a charset parameter are JSON |
| FetchJsonProperties.ParseBeforeStatus | src/fetch-json.ts:40-45 | for any status but 204, an unparsable JSON body fails after the 204 test and before the ok test |
| FetchJsonProperties.UpperCaseIsNotJson | src/fetch-json.ts:34 | "Application/JSON" is not JSON: the test is case-sensitive |
| FetchJsonProperties.LineBreakIsNotJson | src/fetch-json.ts:34 | a line feed between "application/" and "json" defeats the match |
| FetchJsonProperties.SubstringMatch | src/fetch-json.ts:34 | "application/xml; profile=json" matches: the test looks for a substring |
| FetchJsonProperties.JsonAloneIsNotJson | src/fetch-json.ts:34 | "text/json" is not JSON |
| FetchJsonProperties.OrderMatters | src/fetch-json.ts:34 | "json; application/" is not JSON: "json" must follow "application/" |
| ChatUIProperties.TranscriptAppend | src/index.ts:88-122 | the messages depicted by two lists of items joined are those of each list, joined |
| ChatUIProperties.TranscriptOfDepicted | src/index.ts:88-110 | items depicting a history one per message read back as exactly that history |
| ChatUIProperties.RenderRoundTrip | src/index.ts:81-134 | the rendered view loses nothing: its turns read back (SYSTEM from markup, USER from literal text) as the history, whatever the display names, the typing flag and the error |
| ChatUIProperties.AnsweredAppend | src/index.ts:156-174 | appending a user turn, or a user turn and one reply, keeps every SYSTEM turn right after a USER turn |
| ChatUIProperties.SubmitInvariants | src/index.ts:143-182 | one submit keeps the old history as a prefix, keeps a set error set, keeps the error at the one failure text, and keeps every reply right after its question |
| ChatUIProperties.RunInvariants | src/index.ts:143-182 | the same four facts hold over any sequence of complete submit cycles |
| ChatUIProperties.ErrorOutlivesSuccess | src/index.ts:173-179 | after a failure, a successful cycle still draws the failure text as the last item |
| ChatUIProperties.CycleViews | src/index.ts:112-174 | while pending, the view shows the new user turn followed by the typing indicator and is not in first-message mode; once settled there is no typing indicator; after a success the view reads back as the old history plus the question and its reply |
| ChatUIProperties.Apply | src/index.ts:143-182 | a non-blank submit appends its trimmed user turn, raises the typing flag, keeps the error and puts one more request in flight; an arrival with a request in flight drops the typing flag, keeps the history as a prefix and takes one request out of flight; with a usable reply it adds exactly one SYSTEM turn, the reply text, and keeps the error, and otherwise it leaves the history as it was and sets the failure text; a blank submit, or an arrival with nothing in flight, changes nothing |
| ChatUIProperties.ReplayAppendOnly | src/index.ts:136-182 | with requests overlapping in any order the history only grows at its end and a set error stays set |
| ChatUIProperties.Ok200Replies | src/index.ts:161-174 | a 200 JSON reply with output "x" yields the reply text "x" |
| ChatUIProperties.NoInFlightGate | src/index.ts:143-158 | a submit while a reply is awaited still appends its turn and starts another request |
| ChatUIProperties.OverlappingSubmits | src/index.ts:143-158 | two submits from the start, before any reply, append both trimmed turns and leave two requests in flight |
| ChatUIProperties.OverlappingRequest | src/index.ts:158-167 | the second of two overlapping requests posts both user turns |
| ChatUIProperties.OverlappingReplies | src/index.ts:173-176 | the first of two overlapping replies drops the typing flag while the second request is in flight; the second reply lands after the first reply, not after its question |
| ChatUIProperties.HelloScenario | src/index.ts:156-174 | a 200 JSON reply "Hello" to "hi" gives the history [hi, Hello] with no typing flag and no error, and leaves first-message mode |
| ChatUIProperties.ServerErrorScenario | src/index.ts:175-180 | a 500 JSON reply leaves only the user turn and sets the failure text |
| ChatUIProperties.HtmlScenario | src/fetch-json.ts:36-38 | a 200 HTML page is non-JSON and fails the cycle the same way |
| ChatUIProperties.NoContentScenario | src/index.ts:169-170 | a 204 yields null, which has no output, so the cycle fails |

## Left out

- The DOM is not modelled: element creation, CSS classes, `innerHTML` clearing, `render()`'s form wiring, autofocus, scrolling to the bottom and focusing the input after `addMessage`. The view is a list of described items.
- The guard at the start of `renderMessages` is not modelled. Both elements always exist once the constructor has run, so the early return is never taken.
- `marked.parse` is not modelled. A SYSTEM turn is drawn as its markdown source, tagged `Markdown`.
- `fetch`, `JSON.stringify` and `response.json()` are not modelled. The status, content-type header and parsed body are inputs, and the posted body is kept as the value to be serialised.
- Asynchronous interleaving is modelled as a sequence of events replayed by `Replay`: submits and arrivals. An arrival is anonymous. `Live` keeps only how many requests are in flight, and settling does not depend on which request settles, so every order of arrivals is covered.
- `console.error` logging has no observable effect on the state and is left out.
- The `window.ChatUI` registration is not modelled.
- FetchJson.RequestHeaders: `Headers.set` also validates header names and normalises leading and trailing whitespace in values, and neither is modelled. Caller headers are an ordered list of entries, and the integer-like-key ordering of `Object.entries` is left to whoever builds that list.
- Strings are Dafny `string`s, sequences of Unicode scalar values, while JavaScript strings are UTF-16 code units. A draft or reply holding a lone surrogate cannot be represented. Nothing modelled depends on the difference: no character `trim` strips is a surrogate, and header names and values are byte strings.
- ChatUI.ReplyText: an `output` that is a non-empty non-string value is not modelled. A reply's `output` is either a string or missing.
