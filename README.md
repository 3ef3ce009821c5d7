# quickAction launcher core, in Dafny

quickAction is an Electron launcher. It shows a slim bar of web-service
buttons on the edge of the screen. The bar can collapse into a small tab.
Each service opens in a side window, and one entry is a chat window talking
to a local OpenAI-compatible LLM server. This project models and proves the
parts of the program that are logic rather than UI:

- **main.js**
  - the configuration merge in `loadConfig` (`AppConfig`);
  - the window geometry in `BarGeometry`: `clampToWorkArea`, the bar height, collapse, expand and toggle, `move-tab-y`, and quick-window placement;
  - in `LlmApi`: the endpoint normalisation, `check-llm-connection`, the choice of request model, and the `send-llm-message` relay. The relay turns the streamed chat-completion body into `llm-stream-chunk`, `llm-stream-end` and `llm-stream-error` messages.
- **renderer/llm-chat.js**
  - the chat session (`ChatSession`): history, streaming flag, sending, taking in chunks, picking a model;
  - the reasoning-block logic of `formatMessage` (`ThinkFormat`).
- **renderer/settings.js**: the service-list editor (`ServiceEditor`): drag-and-drop reorder, delete, visibility toggle, and add or edit through `editingIndex`.

`Text` states the JavaScript string operations these depend on: `trim`,
`split`, `indexOf`, global match counts, `parseInt`, decimal formatting and
the `/\/+$/` replacement. `Services` holds the service record and the default
list. `Wrappers` holds `Option`.

Stateful code is modelled as classes whose fields are the source's variables.
Each method is proved against a pure step function on a datatype snapshot,
`State() == Step(old(State()), …)`. The invariants and end-to-end properties
are lemmas about those step functions. Pure code is modelled as functions
with contracts.

Inputs from outside the program are parameters:

- the screen's work area;
- the `/models` probe's outcome, as a `ModelsProbe` value;
- the relay's Node events, as an `Event` sequence;
- `JSON.parse` of a `data: ` payload down to `choices[0].delta.content`, as the function `extract`;
- `marked.parse` with `DOMPurify.sanitize` (or the escaping fallback), as the function `render`;
- `confirm` answers, text-box contents, drag data and the id `generateId` produced.

## Model

| member | source | states |
|---|---|---|
| Text.Trim | renderer/settings.js:173-174 | `trim` leaves no white space at either end and never lengthens the text |
| Text.TrimIdempotent | renderer/settings.js:173-174 | trimming an already trimmed text changes nothing |
| Text.TrimPadded | main.js:590 | trimming white space around a text with non-space ends gives back exactly that text |
| Text.IndexOf | renderer/llm-chat.js:318 | the result is the first index where the pattern occurs, or none when it occurs nowhere |
| Text.CountOf | renderer/llm-chat.js:309-310 | the global match count is positive exactly when the pattern occurs; the matches fit in the text |
| Text.CountOfOccurrences | renderer/llm-chat.js:309-310 | for a pattern that cannot overlap itself, the left-to-right match count equals the number of positions where the pattern occurs |
| Text.Occurrences | renderer/llm-chat.js:309-310 | reference definition: the number of positions where the pattern occurs; pinned to `CountOf` by `CountOfOccurrences` |
| ThinkFormat.TagsUnbordered | renderer/llm-chat.js:309-310 | neither tag can overlap itself, so both counts are occurrence counts |
| ThinkFormat.TagCounts | renderer/llm-chat.js:309-311 | the `<think>` and `</think>` counts compared for the thinking test are their numbers of occurrences |
| ThinkFormat.IsThinking | renderer/llm-chat.js:309-311 | definition: more `<think>` than `</think>` matches; pinned by `TagCounts`, `Prepared` and `ThinkingHasBlock` |
| Text.Split | main.js:586 | `split('\n')` gives at least one part, and no part contains the separator |
| Text.Join | main.js:586 | definition of `parts.join(sep)`, the inverse of `split`; pinned by `JoinSplit` and `SplitJoin` |
| Text.SplitJoin | main.js:586 | splitting joined parts that hold no separator gives back the parts |
| Text.JoinSplit | main.js:586-587 | joining the parts with the separator gives back the text |
| Text.SplitAppend | main.js:585-586 | the parts of a concatenation are the parts of each half, with the two boundary parts fused |
| Text.StripTrailing | main.js:505 | removing `/+$` leaves a prefix that does not end in `/`, and only `/` characters were removed |
| Text.StripTrailingIdempotent | main.js:520 | removing the trailing run twice is removing it once |
| Text.NatToString | main.js:573 | a number in a template literal is written with decimal digits and no leading zero; `ParseIntNatToString` reads it back |
| Text.ParseInt | renderer/settings.js:178-179 | definition of `parseInt`: leading white space, a sign, an optional `0x` prefix and the longest digit prefix, `None` for `NaN`; pinned by `ParseIntDigits` and `ParseIntNatToString` |
| Text.ParseIntDigits | renderer/settings.js:178-179 | a string of decimal digits without a leading zero parses to its value |
| Text.ParseIntNatToString | renderer/settings.js:178-179 | parsing the decimal form of a number gives back the number |
| Services.VisibleCount | main.js:122 | the number of shown services is at most the list's length, and zero exactly when none is shown |
| Services.VisibleCountAppend | main.js:122 | the shown services of two lists together are those of each list, counted once |
| Services.VisibleCountSingle | main.js:122 | a single service counts exactly when the bar shows it; with `VisibleCountAppend` this fixes the count |
| Services.ShownOnBar | main.js:122 | definition: the bar shows a service whose `visible` is `true` |
| Services.ListedVisible | renderer/settings.js:70 | definition: the settings list shows a service as visible unless its flag is literally `false` |
| AppConfig.WithVisibleDefault | main.js:68 | `{ visible: true, ...s }` keeps every field of `s` and makes `visible` present, `true` when it was missing |
| AppConfig.Normalized | main.js:68 | the map keeps the length and applies the `visible` default to each entry, in place |
| AppConfig.Ids | main.js:70 | the id set holds every entry's id and nothing else |
| AppConfig.MissingDefaults | main.js:70-75 | only defaults whose id is not among the saved ids, and every such default present |
| AppConfig.MissingDefaultsAtMost | main.js:71-75 | no default is appended more often than it occurs among the defaults |
| AppConfig.MissingDefaultsAppend | main.js:71-75 | the defaults are visited in order: those missing from a concatenation are those of the first part followed by those of the second |
| AppConfig.MissingDefaultsSingle | main.js:72-74 | a single default is appended once exactly when its id is missing |
| AppConfig.MergeServices | main.js:67-76 | the loop pushing missing defaults computes the merged list |
| AppConfig.MergedServices | main.js:67-76 | definition: the normalised saved list followed by the missing defaults; pinned by `MergeServices`, `MergeKeepsSaved`, `MergeCoversDefaults` and `MergeIdempotent` |
| AppConfig.MergeKeepsSaved | main.js:68 | every saved service comes first, in order, unchanged except for a defaulted `visible` |
| AppConfig.MergeCoversDefaults | main.js:70-75 | after the merge every default id is present |
| AppConfig.MergeFlagsVisibility | main.js:67-75 | when every default has a `visible` flag, so does every merged service |
| AppConfig.MergeIdempotent | main.js:67-77 | merging an already merged list again changes nothing, so loading a saved configuration is stable |
| AppConfig.NothingMissing | main.js:70-75 | no default is appended to a list already holding every default id |
| AppConfig.LoadConfig | main.js:59-83 | no file gives the defaults; otherwise each saved top-level key replaces its default, saved services are merged, and every default id is present |
| BarGeometry.Clamp | main.js:98-101 | `Math.max(lo, Math.min(v, hi))` is at least `lo`, at most `hi` when the range is non-empty, and `v` when `v` is in range |
| BarGeometry.RoundHalf | main.js:130 | `Math.round(n / 2)` on an integer is the half rounded upwards |
| BarGeometry.ClampToWorkArea | main.js:95-106 | size is cut down to the area; a window that fits ends up inside it; a window already inside keeps its position; an oversized one is pinned to the area's top-left |
| BarGeometry.ClampToWorkAreaIdempotent | main.js:95-106 | clamping an already clamped window changes nothing |
| BarGeometry.BarHeight | main.js:125 | the height is `16 + 26 + 58·visible + 50`, capped at the work area's height |
| BarGeometry.InitialBarBounds | main.js:122-134 | the first bar bounds have the capped height and width and lie within the work area; a saved position where the bar fits is used unchanged; with none, a wide enough area puts the bar 12 px from the right edge, vertically centred |
| BarGeometry.ResizedBar | main.js:447-451 | after `save-services` the bar's height matches the new number of shown buttons and stays inside the area |
| BarGeometry.CollapsedTab | main.js:204-218 | the tab is 14×50, at the right edge exactly when the bar's centre is right of the screen's, vertically centred on the bar unless the edges intervene |
| BarGeometry.RightHalf | main.js:204-205 | definition: the bar's centre lies right of the screen's centre, compared over doubled integers |
| BarGeometry.CollapseBar | main.js:197-226 | with an expanded window: collapsed, the old bounds remembered, the tab's bounds set, one `collapse-changed true`; otherwise nothing changes |
| BarGeometry.ExpandBar | main.js:228-246 | with a collapsed window and saved bounds: the bar returns with the tab's clamped top edge, stored as `barPosition` and in `expandedBounds`, one `collapse-changed false`; otherwise nothing changes |
| BarGeometry.MoveTabY | main.js:637-645 | only a collapsed tab moves, only vertically, by `deltaY` when that stays inside the area, otherwise clamped |
| BarGeometry.WindowClosed | main.js:190-193 | closing drops the window and keeps the collapse state |
| BarGeometry.ToggleCollapse | main.js:248-254 | definition: expand when collapsed, collapse otherwise; pinned by `ToggleSwitches` |
| BarGeometry.Consistent | main.js:197-254 | invariant: a collapsed bar remembers its expanded bounds; kept by `ConsistentPreserved` |
| BarGeometry.ConsistentPreserved | main.js:197-254 | every handler keeps the invariant that a collapsed bar remembers its expanded bounds |
| BarGeometry.ToggleSwitches | main.js:248-254 | with the window open, a toggle always switches state and announces the new one |
| BarGeometry.CollapseExpandShift | main.js:217-242 | collapsing then expanding brings the bar back `Math.round((height - 50) / 2)` px lower, same size and x |
| BarGeometry.StillAfterCollapseExpand | main.js:217-235 | a bar held at the bottom edge comes back exactly where it was |
| BarGeometry.QuickWindowSize | main.js:318-319 | a missing or zero saved width or height reads as 500 or 700 |
| BarGeometry.QuickWindowBounds | main.js:317-338 | the window opens 10 px left of the bar, else 10 px right of it when the left would leave the area, or centred with no bar; always clamped |
| BarGeometry.BarWindow.constructor | main.js:113-134 | the bar starts open, expanded, at `InitialBarBounds` of the configured services and saved position, with no remembered bounds |
| BarGeometry.BarWindow.Collapse | main.js:197-226 | the new state is `CollapseBar` of the old, and the invariant is kept |
| BarGeometry.ExpandThenRestart | main.js:128-131 | the `barPosition` stored on expanding makes the next start reopen a fitting bar exactly at its expanded bounds |
| BarGeometry.BarWindow.Expand | main.js:228-246 | the new state is `ExpandBar` of the old, and the invariant is kept |
| BarGeometry.BarWindow.Toggle | main.js:248-254 | the new state is `ToggleCollapse` of the old, and the invariant is kept |
| BarGeometry.BarWindow.MoveTab | main.js:637-645 | the new state is `MoveTabY` of the old, and the invariant is kept |
| BarGeometry.BarWindow.Closed | main.js:190-193 | the new state is `WindowClosed` of the old |
| LlmApi.Endpoint | main.js:520 | the configured endpoint, or the default when missing or empty, with its whole trailing run of `/` removed; the result never ends in `/` |
| LlmApi.EndpointNormalized | main.js:505 | normalising an endpoint again changes nothing; no settings give the default endpoint |
| LlmApi.ModelsUrl | main.js:506 | definition: `<endpoint>/models` |
| LlmApi.ChatUrl | main.js:545 | definition: `<endpoint>/chat/completions` |
| LlmApi.StatusOk | main.js:507 | definition: `res.ok`, a status from 200 to 299 |
| LlmApi.ConfiguredModel | main.js:521 | definition: `config.llmConfig?.model`, empty without `llmConfig`; pinned by `RequestModel` and `ProbeIrrelevant` |
| LlmApi.HttpStatusMessage | main.js:512 | `HTTP <status>` starts with `HTTP ` and the status reads back from it |
| LlmApi.CheckConnection | main.js:503-516 | `ok: true` exactly for a 2xx answer whose body parses, with its model ids; otherwise the fetch error, `HTTP <status>` or the parse error |
| LlmApi.RequestModel | main.js:521-537 | the argument if non-empty, else the configured model, else the first id of a successful non-empty probe, else empty |
| LlmApi.StartChat | main.js:538-552 | no model means exactly one error and no request; otherwise a streamed POST to `<endpoint>/chat/completions` with a non-empty model |
| LlmApi.ProbeIrrelevant | main.js:521-524 | with an argument or a configured model the probe's outcome cannot matter, and a request is always made |
| LlmApi.LineContent | main.js:590-603 | a line yields content exactly when, trimmed, it starts with `data: `, its payload is not `[DONE]`, and the payload gives non-empty content |
| LlmApi.PaddedLine | main.js:590 | white space around a line does not change what it yields |
| LlmApi.DoneLineSkipped | main.js:593 | `data: [DONE]` yields nothing |
| LlmApi.LineEvents | main.js:589-604 | the lines' events are chunks with non-empty text, at most one per line |
| LlmApi.LineEventsAppend | main.js:589-604 | the events of two runs of lines are the events of each, in order |
| LlmApi.LineDropped | main.js:601-603 | a line that yields nothing, a malformed payload among them, is dropped and the lines after it still yield their events |
| LlmApi.Rest | main.js:587 | the text kept in `buffer` holds no `\n` |
| LlmApi.Lines | main.js:586 | definition: `buffer.split('\n')`; pinned by `LinesJoin` and `LinesAppend` |
| LlmApi.CompleteLines | main.js:586-587 | definition: the lines before the last, which the loop parses; pinned by `LinesJoin` and `LinesAppend` |
| LlmApi.LinesJoin | main.js:586-587 | the body is its complete lines, each ended by `\n`, followed by the kept rest |
| LlmApi.LinesAppend | main.js:585-587 | appending a chunk adds exactly the complete lines of the old rest plus the chunk, and leaves their rest |
| LlmApi.Feed | main.js:583-605 | definition: the data handler run over a list of chunks from a buffer; pinned by `FeedBody` and `ChunkBoundaryIndependence` |
| LlmApi.FeedBody | main.js:583-605 | running the data handler over chunks yields the events of the complete lines of their concatenation and keeps its rest |
| LlmApi.ChunkBoundaryIndependence | main.js:583-605 | two chunkings of the same body yield the same buffer and the same events |
| LlmApi.TrailingFragmentIgnored | main.js:587 | a trailing fragment without `\n` is never parsed |
| LlmApi.ApiErrorStatusReadsBack | main.js:573 | the message starts `API Error (`, the status reads back from it, `): ` follows, and it ends with the body |
| LlmApi.ApiErrorMessage | main.js:573 | definition: `API Error (<status>): <body>`; pinned by `ApiErrorStatusReadsBack` |
| LlmApi.ConnectionErrorMessage | main.js:627 | the message is `接続エラー: ` followed by the error text |
| LlmApi.Deliver | main.js:572-628 | definition: `sender.send` behind `!sender.isDestroyed()`, nothing to a destroyed window |
| LlmApi.Begin | main.js:538-541 | with no model the relay is finished, made no request, and sent at most the one error; otherwise it awaits the response having sent nothing |
| LlmApi.Respond | main.js:567-582 | only an awaited response is taken: 200 streams, any other status drains; nothing is sent |
| LlmApi.ReceiveData | main.js:583-605 | a drained response only accumulates its body; a 200 response marks data, records the chunk, keeps a buffer without `\n` and only extends what was sent; a destroyed window receives nothing |
| LlmApi.ReceiveEnd | main.js:571-612 | `end` sends one `llm-stream-end` (200) or one `API Error` with status and body (otherwise), when the window lives |
| LlmApi.ResponseFailed | main.js:615-621 | a response `error` sends `llm-stream-end` exactly when data arrived and the window lives; a drained response has no handler and sends nothing |
| LlmApi.RequestFailed | main.js:624-630 | a request `error` sends one connection error whenever it fires; it finishes a relay still awaiting its response and leaves a running response's listeners in place |
| LlmApi.TwoTerminals | main.js:615-630 | as written, a request `error` in the middle of a stream followed by the response's `error` sends a connection error and then `llm-stream-end` |
| LlmApi.SettledRequestFailed | main.js:624-630 | corrected: a request `error` before the end sends one connection error and finishes; after the end it sends nothing |
| LlmApi.SettledResponseFailed | main.js:615-621 | corrected: a response `error` finishes with one terminal message, `llm-stream-end` after data, a connection error before any, the `API Error` on a drained response |
| LlmApi.Step | main.js:566-630 | definition: the relay as written after one event, each event going to its handler; pinned by `TwoTerminals` and `DestroyedWindowSilent` |
| LlmApi.Run | main.js:566-634 | definition: the relay as written after a sequence of events |
| LlmApi.SettledStep | main.js:566-630 | definition: the corrected relay after one event, with `SettledRequestFailed` and `SettledResponseFailed`; pinned by `StepKeepsValid` |
| LlmApi.SettledRun | main.js:566-634 | definition: the corrected relay after a sequence of events; pinned by `RunKeepsValid` and `AtMostOneTerminal` |
| LlmApi.ValidRelay | main.js:566-630 | invariant of the corrected relay: nothing sent before a 200 response, the streaming invariant while it streams, chunks then at most one terminal message, which a finished relay with a live window has sent |
| LlmApi.DataKeepsValid | main.js:583-605 | a data event keeps the relay invariant |
| LlmApi.StepKeepsValid | main.js:566-630 | every event of the corrected relay keeps the relay invariant |
| LlmApi.RunKeepsValid | main.js:566-634 | any sequence of events of the corrected relay keeps the relay invariant |
| LlmApi.AtMostOneTerminal | main.js:538-634 | corrected relay: whatever events arrive, the window receives only chunks except that the last message may be the single terminal one, and a finished relay with the window open has sent it |
| LlmApi.StreamShape | main.js:583-585 | data events on a 200 response keep it streaming and record the chunks in order |
| LlmApi.StreamMarksData | main.js:584 | `receivedData` is set exactly when a data event has arrived, with content or not |
| LlmApi.ReceiveAllKeepsValid | main.js:583-605 | a run of data events keeps the relay invariant |
| LlmApi.ReceiveAll | main.js:583-605 | definition: the relay after a run of data events; pinned by `StreamShape`, `StreamMarksData` and `DrainRun` |
| LlmApi.LiveStreamIsFeed | main.js:583-605 | while a 200 response streams to a live window, buffer and sent events are exactly what the data handler computes from all chunks so far |
| LlmApi.DrainRun | main.js:569-570 | data events on a failed response only accumulate its body |
| LlmApi.StreamedEvents | main.js:580-605 | after a 200 response and its chunks the live window has the events of the complete lines of the whole body |
| LlmApi.StreamCompletes | main.js:607-612 | a clean end adds exactly one `llm-stream-end` after those events |
| LlmApi.StreamBreaks | main.js:615-621 | a response error adds one `llm-stream-end` when chunks arrived and nothing otherwise |
| LlmApi.SettledStreamBreaks | main.js:615-621 | corrected: a response error adds `llm-stream-end` when chunks arrived and a connection error otherwise |
| LlmApi.ErrorStatusReported | main.js:568-577 | a non-200 response sends no chunks and exactly one `API Error (<status>): <whole body>` |
| LlmApi.DestroyedWindowSilent | main.js:572-628 | once the window is destroyed, no event sends it anything |
| LlmApi.StreamStep | main.js:583-605 | one data event keeps the streaming invariant and agrees with the data handler on all chunks |
| LlmApi.StreamRelay.constructor | main.js:538-566 | the relay starts in the state `Begin` gives |
| LlmApi.StreamRelay.OnResponse | main.js:567-582 | the new state is `Respond` of the old |
| LlmApi.StreamRelay.OnData | main.js:583-605 | the new state is `ReceiveData` of the old |
| LlmApi.StreamRelay.SendLines | main.js:589-604 | the loop sends the events of the complete lines, in order, and nothing to a destroyed window |
| LlmApi.StreamRelay.OnEnd | main.js:571-612 | the new state is `ReceiveEnd` of the old |
| LlmApi.StreamRelay.OnResponseError | main.js:615-621 | the new state is `ResponseFailed` of the old |
| LlmApi.StreamRelay.OnRequestError | main.js:624-630 | the new state is `RequestFailed` of the old |
| LlmApi.StreamRelay.DestroySender | main.js:598-628 | the window is marked destroyed and nothing else changes |
| ChatSession.ApiMessages | renderer/llm-chat.js:209-213 | the API list is the system prompt (only when set) followed by the whole history |
| ChatSession.SystemPromptLeads | renderer/llm-chat.js:209-213 | in that list the only system message is the prompt, first |
| ChatSession.AppendChunk | renderer/llm-chat.js:224-241 | a chunk extends the last assistant turn or opens one; earlier messages are unchanged; the length grows by at most one |
| ChatSession.AppendChunkNoSystem | renderer/llm-chat.js:224-241 | taking in a chunk never adds a system message |
| ChatSession.AppendAllExtends | renderer/llm-chat.js:224-241 | chunks on an open assistant turn all land in it, in order |
| ChatSession.AppendAll | renderer/llm-chat.js:176-178 | definition: the history after each chunk callback in turn; pinned by `AppendAllExtends` and `StreamedReply` |
| ChatSession.StreamedReply | renderer/llm-chat.js:176-178 | a streamed reply adds exactly one assistant message holding the concatenated chunks |
| ChatSession.ModelAfterListing | renderer/llm-chat.js:66-90 | the saved model when listed, else the first listed; unchanged for an empty list |
| ChatSession.ModelListingStable | renderer/llm-chat.js:83-89 | listing the same models again changes nothing |
| ChatSession.Session.constructor | renderer/llm-chat.js:2-8 | the session starts with no history, not streaming |
| ChatSession.Session.SendMessage | renderer/llm-chat.js:191-216 | blank input or a running stream changes nothing; otherwise one trimmed user message, streaming on, and the API called with the system prompt in front of the history |
| ChatSession.Session.AppendToAssistantMessage | renderer/llm-chat.js:224-244 | the history becomes `AppendChunk` of the old; no system message appears |
| ChatSession.Session.FinishStreaming | renderer/llm-chat.js:247-261 | streaming stops and the history is unchanged |
| ChatSession.Session.OnStreamError | renderer/llm-chat.js:184-187 | streaming stops, then the error is shown; the history is unchanged |
| ChatSession.Session.OnSendFailed | renderer/llm-chat.js:217-220 | streaming stops and `メッセージの送信に失敗しました: <message>` is shown |
| ChatSession.Session.ClearConversation | renderer/llm-chat.js:136-142 | a confirmed clear of a non-empty history empties it; otherwise nothing changes |
| ChatSession.Session.PopulateModelSelect | renderer/llm-chat.js:66-90 | the configured model becomes `ModelAfterListing`; the drop-down shows it, or the empty entry for no models |
| ThinkFormat.Prepared | renderer/llm-chat.js:305-314 | the working copy gains exactly one `</think>` when `<think>` outnumbers `</think>`, and is the text otherwise |
| ThinkFormat.Segments | renderer/llm-chat.js:318-322 | the cut alternates text without `<think>` and blocks without `</think>`, ending in text where no block starts |
| ThinkFormat.SegmentsSource | renderer/llm-chat.js:318-322 | the pieces spell out the working copy again: nothing is lost or reordered |
| ThinkFormat.BlockOrder | renderer/llm-chat.js:317-322 | `thinkBlocks[k]` is the inside of the k-th block from the left |
| ThinkFormat.Source | renderer/llm-chat.js:318-322 | definition: the text the pieces spell out; pinned by `SegmentsSource` |
| ThinkFormat.Blocks | renderer/llm-chat.js:317-322 | definition: the insides of the blocks, left to right, the `thinkBlocks` array; pinned by `BlockOrder` |
| ThinkFormat.Placeholder | renderer/llm-chat.js:319 | definition: `THINKBLOCKPLACEHOLDER<i>END` |
| ThinkFormat.Masked | renderer/llm-chat.js:318-322 | definition: the working copy with the k-th block replaced by placeholder k, the text handed to `marked` |
| ThinkFormat.ThinkingHasBlock | renderer/llm-chat.js:311-322 | a reply still thinking always has at least one block |
| ThinkFormat.BlockFound | renderer/llm-chat.js:318-322 | a `<think>` with a `</think>` anywhere after it always yields at least one block |
| ThinkFormat.Wrapper | renderer/llm-chat.js:352-359 | the open "thinking" wrapper exactly for the last block of a reply still thinking, the collapsed one otherwise |
| ThinkFormat.OpenDetails | renderer/llm-chat.js:356 | definition: the open "思考中..." wrapper around the block's HTML |
| ThinkFormat.ClosedDetails | renderer/llm-chat.js:358 | definition: the collapsed "推論過程を表示" wrapper around the block's HTML |
| ThinkFormat.ExpandPlain | renderer/llm-chat.js:363 | a replacement without `$` is inserted as it is |
| ThinkFormat.Expand | renderer/llm-chat.js:363 | definition: GetSubstitution on a replacement string, `$$`, `$&`, `` $` `` and `$'` expanded; pinned by `ExpandPlain` and `DoubleDollar` |
| ThinkFormat.IsPattern | renderer/llm-chat.js:363 | definition: the characters after `$` that form a pattern here: `$`, `&`, `` ` `` and `' |
| ThinkFormat.Substitution | renderer/llm-chat.js:363 | definition: what each `$` pattern stands for: `$`, the match, the text before it, the text after it |
| ThinkFormat.HeadsPlain | renderer/llm-chat.js:356-358 | the wrappers' own markup holds no `$` |
| ThinkFormat.WrapperExpanded | renderer/llm-chat.js:356-363 | as written, only the block's HTML inside a wrapper has its `$` patterns expanded |
| ThinkFormat.ReplaceAbsent | renderer/llm-chat.js:362-363 | where the placeholder does not occur, nothing is replaced |
| ThinkFormat.ReplaceFrom | renderer/llm-chat.js:362-363 | definition: `html.replace(new RegExp(placeholder, 'g'), w)` from a position on, expanded or verbatim; pinned by `ReplaceAbsent` and `VerbatimInsertion` |
| ThinkFormat.InsertBlocks | renderer/llm-chat.js:341-364 | definition: the `forEach` that replaces each placeholder with its rendered wrapper in turn |
| ThinkFormat.Format | renderer/llm-chat.js:294-367 | empty text gives `''`; any other text gives a string wrapped in `<div class="markdown-body">…</div>` |
| ThinkFormat.FormatMessageAsWritten | renderer/llm-chat.js:294-367 | definition: `formatMessage` as written, blocks inserted through a replacement string; pinned by `FormatCollapsesDollars` |
| ThinkFormat.FormatMessage | renderer/llm-chat.js:294-367 | definition: `formatMessage` with each block inserted verbatim; pinned by `FormatCollapsesDollars` and `VerbatimInsertion` |
| ThinkFormat.DoubleDollar | renderer/llm-chat.js:363 | in a replacement string `$$` stands for a single `$` |
| ThinkFormat.DollarCollapsed | renderer/llm-chat.js:363 | as written a block whose HTML holds `$$` comes out with `$`; inserted verbatim it keeps `$$` |
| ThinkFormat.VerbatimInsertion | renderer/llm-chat.js:363 | inserted verbatim, a placeholder standing alone becomes exactly its wrapper |
| ThinkFormat.FormatCollapsesDollars | renderer/llm-chat.js:294-367 | on `<think>$$</think>`, `formatMessage` as written renders the block with `$`; the corrected one keeps `$$` |
| ServiceEditor.RemoveAt | renderer/settings.js:105 | `splice(index, 1)` removes exactly that element and shifts later ones down by one |
| ServiceEditor.InsertAt | renderer/settings.js:126 | `splice(index, 0, x)` puts `x` at `index` and shifts later ones up by one |
| ServiceEditor.Move | renderer/settings.js:125-126 | definition: `splice(from, 1)` then `splice(to, 0, moved)`; pinned by `MovePermutes`, `MoveKeepsOrder`, `MoveBack` and `MoveInPlace` |
| ServiceEditor.InsertRemove | renderer/settings.js:125-126 | putting a removed entry back where it was restores the list |
| ServiceEditor.MovePermutes | renderer/settings.js:121-129 | a move keeps the length and the multiset of entries and puts the moved entry at the target |
| ServiceEditor.MoveKeepsOrder | renderer/settings.js:125-126 | the other entries keep their relative order |
| ServiceEditor.MoveBack | renderer/settings.js:125-126 | dragging the entry back where it came from restores the list |
| ServiceEditor.MoveInPlace | renderer/settings.js:124 | a move onto its own position changes nothing |
| ServiceEditor.Toggled | renderer/settings.js:94-97 | the flag becomes present and the negation of "not literally `false`"; nothing else changes |
| ServiceEditor.ToggleTwice | renderer/settings.js:94-97 | toggling twice restores an entry with a flag, and turns a missing flag into `true` |
| ServiceEditor.QuickDimension | renderer/settings.js:178-179 | the parsed number, or the fallback when it is `NaN` or 0; never 0 |
| ServiceEditor.FromForm | renderer/settings.js:183-192 | the saved entry has the trimmed name and URL, the form's colour and mode, the parsed or default size, and the given id, icon and flag |
| ServiceEditor.Complete | renderer/settings.js:181 | definition: neither the trimmed name nor the trimmed URL is empty; pinned by `SavedList` |
| ServiceEditor.EditKeepsIds | renderer/settings.js:194-195 | editing an entry keeps the list's ids |
| ServiceEditor.Editor.constructor | renderer/settings.js:16-20 | the editor starts with the given list, no dialog open, nothing saved |
| ServiceEditor.Editor.Drop | renderer/settings.js:121-129 | a drop from another position (or `NaN`, acting as 0) moves that entry to the target and saves; a drop on itself changes nothing |
| ServiceEditor.Editor.Delete | renderer/settings.js:103-107 | a confirmed delete removes exactly that entry and saves; otherwise nothing changes |
| ServiceEditor.Editor.ToggleVisibility | renderer/settings.js:94-97 | only that entry's flag is toggled, then the list is saved |
| ServiceEditor.Editor.OpenModal | renderer/settings.js:136-137 | the dialog edits the given entry (-1 adds one); the list is unchanged |
| ServiceEditor.Editor.CloseModal | renderer/settings.js:166-169 | `editingIndex` becomes -1; the list is unchanged |
| ServiceEditor.SavedList | renderer/settings.js:172-202 | `None` exactly when the trimmed name or URL is empty; an edit keeps the length and replaces only that entry by the form's entry with its id, icon and flag; an add appends one entry with `⭐` and `visible: true`; every other entry stays |
| ServiceEditor.Editor.SaveService | renderer/settings.js:172-202 | an incomplete form changes nothing and leaves the dialog open; otherwise the list becomes the saved list, is sent, and the dialog closes |

## Left out

- Electron itself is not modelled: windows, tray, menus, login items, IPC ordering and `async` interleaving. Relay callbacks are a sequential stream of events.
- File I/O and JSON are not modelled: `log`, `saveConfig` and the reads in `loadConfig` are outside the model. `loadConfig` takes the parsed file or `None`. `JSON.parse` of relay payloads is the parameter `extract`.
- The network is not modelled: `fetch`, `AbortSignal.timeout`, the `http`/`https` request objects and `new URL`. The `/models` probe is a given outcome.
- Floating point is not modelled: the full-mode window's `wa.width * 0.85` sizing (main.js:332-335) and `barOpacity`'s value.
- `marked`, `DOMPurify` and `escapeHtml` are foreign code and become the parameter `render`. The model cannot tell whether the renderer wraps a placeholder in `<p>`.
- DOM rendering is not modelled: message bubbles, typing indicator, `renderServiceList` markup, focus, the form prefill in `openModal`, favicons, and `getFaviconUrl`.
- `generateId` depends on the clock and randomness, so the new id is a parameter of `SaveService`.
- The bar's `moved` handler (main.js:169-188), which clamps and saves the dragged position, is not modelled.
- The `send-llm-message` relay is modelled by the messages it sends.
  - `errBody` accumulates body chunks as text; a multibyte character split across chunks is not modelled.
  - The model assumes that a response emits nothing after its `end` or `error`, and that no response follows a request `error` that came before it. A request `error` may come at any time, and a response under way keeps its listeners. `TwoTerminals` and `StreamBreaks` rest on this reading of Node's events, and `AtMostOneTerminal` is proved of the corrected relay.
  - The no-model error (main.js:539) is sent without the `isDestroyed` check the other sends have. The model treats a destroyed window as receiving nothing here too.
- LlmApi.LineContent: `extract` stands for the whole `JSON.parse` / `choices[0].delta.content` / truthiness chain, so non-string content is not distinguished.
- ChatSession.Session.constructor: the startup merge `{ ...llmConfig, ...config }` (llm-chat.js:26-28) and the settings panel's save handler are not modelled; the session is given its settings.
- ServiceEditor.Editor.Drop: drag data that parses to a number outside the list (a drag from another application) is excluded by the precondition; only `NaN` is modelled.
- A saved `"services": null` and a saved per-entry `"visible": null` cannot be written as a `SavedConfig` or `Service`: the source skips the merge for the first and keeps the `null`, and the bar hides the second (`s.visible` is falsy) while the settings list shows it (`visible !== false`). Neither case is modelled.
- Electron's `setBounds` is taken to give exactly the bounds asked for. The user dragging the bar between two handlers is not an event of the model.
- Strings are sequences of code points, while JavaScript's `length`, `slice` and `trim` count UTF-16 code units. The results agree here because every offset the model takes comes from an ASCII pattern or prefix (`data: `, the tags, `/`, `\n`) and `trim`'s white-space set has no character outside the Basic Multilingual Plane.
- ServiceEditor.Editor.ToggleVisibility: the handler negates the flag read when the list was last rendered, and the list is re-rendered only after `await window.api.saveServices` answers (renderer/settings.js:204-206). The model reads the current flag, so it is exact only when each toggle's save has answered before the next click. Two clicks inside one save turn a flag once in the source and twice in the model; this is part of the `async` interleaving left out above.
- `saveServices` is recorded as the ghost history `saved`; what the main process does with it is `BarGeometry.ResizedBar`.

## Findings

| source | as written | input that shows it | evidently intended | confidence | as-written member | corrected member |
|---|---|---|---|---|---|---|
| renderer/llm-chat.js:363 | `html.replace(regex, detailsHtml)` passes the block's HTML as a replacement string, so `$$`, `$&`, `` $` `` and `$'` in it are expanded | a reply `<think>$$</think>` (LaTeX display maths in the reasoning) with any renderer that keeps `$$`: the block shows `$` | the rendered block inserted verbatim (`() => detailsHtml`) | not executed | ThinkFormat.FormatCollapsesDollars | ThinkFormat.VerbatimInsertion |
| main.js:615-630 | the request's and the response's `error` listeners send without any record that a terminal message has gone out | the server dropping the connection mid-stream: `Response(200)`, a data event, a request `error`, then the response's `error` gives `[chunks…, 接続エラー: …, llm-stream-end]`, as Node destroys the unfinished response with an `error` | at most one terminal message per request | not executed | LlmApi.TwoTerminals | LlmApi.AtMostOneTerminal |
| main.js:615-621 | a response `error` before any data sends nothing, yet the relay is over | `Response(200)` then a response `error`: no terminal message, so `finishStreaming` never runs, `isStreaming` stays true and every later `sendMessage` returns at renderer/llm-chat.js:193 | a transport error before any chunk ends the request with `llm-stream-error` | not executed | LlmApi.StreamBreaks | LlmApi.SettledStreamBreaks |
