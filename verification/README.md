# Chat turn controller of 5ire, modelled in Dafny

5ire is a desktop AI-chat client. Its chat page (`src/renderer/pages/chat/index.tsx`)
is the controller that turns a user's prompt into one conversation turn. This
project models the sequential logic in that page as pure Dafny functions, with
lemmas about them:

- **Scroll-follow** (`ScrollFollow`, `scroll_follow.dfy`). While a reply streams in,
  the message list is kept pinned to the bottom. This stops as soon as the user
  scrolls up, and resumes once they scroll back down to the bottom. The state is
  `isUserScrolling`, `lastScrollTop` and a `pending` flag. The flag stands for the
  debounced `scrollToBottom`: a request sets it, `cancel()` clears it, and the
  debounced call running clears it.
- **Submit preamble** (`ChatTurn.Submit`, `text.dfy`). A prompt that trims to nothing is
  ignored. The temporary chat is promoted to a persisted one, or an existing chat's
  summary is updated. The summary is the first 50 characters. The placeholder message
  is created active.
- **Knowledge augmentation** (`Knowledge`, `knowledge.dfy`). With collections attached,
  the retrieved chunks are numbered 1..n in retrieval order. Their source files are
  looked up once per distinct file id. The outgoing prompt is kept as structure:
  context entries plus the objective.
- **Completion** (`ChatTurn.Complete`, `citations.dfy`). A failed turn with blank
  content and reasoning only clears `isActive`. Any other turn stores the reply,
  reasoning, token counts and citations, and records usage. Supplied token counts
  that are missing or zero fall back to the local counters. Cited chunks are the
  candidates whose id the reply cites, in candidate order, numbered 1..k. Cited
  files are the candidate files holding them.
- **Callbacks**. `onToolCalls` and `onError` update the chat's loading and
  running-tool state. `onReading` appends a fragment and asks the scroll-follow
  controller for an auto-scroll.

`Seqs` holds the two list operations used throughout. `Filter` is
`Array.prototype.filter`. `Dedup` is `[...new Set(xs)]`, with `DedupBySet`
as its one-pass loop.

Three behaviours of the code worth knowing:

- A scroll event whose offset is *equal* to the last one counts as scrolling up
  (`index.tsx:102` tests `>` strictly).
- `scrollToBottom()` is called without the user-scrolling guard in two places:
  after the message list loads (`:167`, when there is no anchor) and after the
  turn's message is created (`:234`). The model calls these `ForcedScroll`. The
  invariant "no auto-scroll is outstanding while the user scrolls" holds for every
  other event (`ScrollFollow.RunPreservesInv`). A forced scroll breaks it
  (`ScrollFollow.ForcedScrollBreaksInv`).
- `onError` only clears `loading`. It neither clears `runningTool` nor touches the
  message.

The helpers defined outside the page are parameters of the model: the token
counters, `extractCitationIds`, `getNormalContent`, `getReasoningContent`, the
knowledge search and `getFiles` (`ChatTurn.Collaborators`, `Knowledge.Retrieval`).
The ids that the persistence layer assigns are parameters too. The temporary chat's
sentinel id is the constructor `ChatTurn.TempChat`, because its value is defined in
`consts`, which is not part of this model. `isBlank` comes from the validators
utility, which is also not part of this model. It is taken to mean "undefined, or
empty once trimmed" (`Text.IsBlank`).

## Model

| member | source | states |
|---|---|---|
| Text.Trim | src/renderer/pages/chat/index.tsx:188 | `trim` removes exactly a leading and a trailing run of whitespace and line terminators; the rest is a contiguous slice whose ends are not whitespace |
| Text.TrimEmptyIffAllTrimmable | src/renderer/pages/chat/index.tsx:188-190 | a prompt trims to the empty string exactly when every character is whitespace, so the blank guard rejects exactly the all-whitespace prompts |
| Text.Summary | src/renderer/pages/chat/index.tsx:196 | the chat summary is a prefix of the prompt of length min(50, \|prompt\|) |
| Text.SummaryIdempotent | src/renderer/pages/chat/index.tsx:217 | summarising a summary changes nothing, and a prompt is its own summary exactly when it has at most 50 characters |
| Seqs.Filter | src/renderer/pages/chat/index.tsx:298-300 | filtering keeps exactly the elements that pass, each as often as in the input and never more elements than the input |
| Seqs.FilterIsSubsequence | src/renderer/pages/chat/index.tsx:304 | a filtered list keeps the input's order: it is a subsequence of the input |
| Seqs.Dedup | src/renderer/pages/chat/index.tsx:248-250 | `[...new Set(xs)]` has no repeated value and holds exactly the values of `xs` |
| Seqs.DedupFirstAppearanceOrder | src/renderer/pages/chat/index.tsx:301-303 | the distinct values are listed by increasing position of first appearance in the input |
| Seqs.DedupIsSubsequence | src/renderer/pages/chat/index.tsx:301-303 | the distinct values form a subsequence of the input |
| Seqs.DedupBySet | src/renderer/pages/chat/index.tsx:248-250 | the one-pass loop with a seen-set computes the same list as the first-appearance definition |
| ScrollFollow.OnScroll | src/renderer/pages/chat/index.tsx:96-116 | an offset not greater than the last sets user-scrolling and cancels the pending auto-scroll; a greater offset at the bottom clears user-scrolling, one short of the bottom leaves it; the offset is always remembered |
| ScrollFollow.Step | src/renderer/pages/chat/index.tsx:118-139 | content requests an auto-scroll exactly when the user is not scrolling; an unconditional call always leaves a request outstanding; teardown clears user-scrolling and nothing else; the debounced call running clears the request and nothing else |
| ScrollFollow.NoRequestWhileUserScrolling | src/renderer/pages/chat/index.tsx:336-338 | while the user is scrolling, no event except an unconditional call requests an auto-scroll |
| ScrollFollow.StepPreservesInv | src/renderer/pages/chat/index.tsx:106-108 | every event except an unconditional call keeps "an outstanding auto-scroll implies the user is not scrolling" |
| ScrollFollow.RunPreservesInv | src/renderer/pages/chat/index.tsx:96-139 | that invariant holds after any sequence of such events from a state that satisfies it |
| ScrollFollow.ForcedScrollBreaksInv | src/renderer/pages/chat/index.tsx:167 | an unconditional `scrollToBottom()` while the user is scrolling leaves an auto-scroll outstanding against the invariant |
| ScrollFollow.ScrollUpSuppressesFollow | src/renderer/pages/chat/index.tsx:102-108 | after an upward or unchanged scroll, any number of streamed fragments leave the view user-controlled with nothing requested |
| ScrollFollow.ArrivalsKeepSuppressed | src/renderer/pages/chat/index.tsx:334-339 | streamed fragments leave a user-scrolling state without a request exactly as it was |
| ScrollFollow.ScrollDownToBottomResumesFollow | src/renderer/pages/chat/index.tsx:101-105 | a downward scroll reaching the bottom restores follow mode and the next fragment requests an auto-scroll |
| ScrollFollow.ScrollDownShortOfBottomStaysSuppressed | src/renderer/pages/chat/index.tsx:102-105 | a downward scroll that stops short of the bottom keeps streamed content from auto-scrolling |
| ScrollFollow.StepEndsUserScrollingOnlyAtBottomOrTeardown | src/renderer/pages/chat/index.tsx:102-107 | an event that ends the user-scrolling state is a teardown or a downward scroll that reaches the bottom |
| ScrollFollow.UserScrollingPersists | src/renderer/pages/chat/index.tsx:102-110 | without a teardown and without a scroll event at the bottom (in either direction), user-scrolling stays set through any event sequence |
| ScrollFollow.ExampleScrollUpTrace | src/renderer/pages/chat/index.tsx:96-116 | offsets 100, 80, 60 followed by a fragment request no auto-scroll |
| Citations.SelectChunks | src/renderer/pages/chat/index.tsx:297-300 | the cited chunks are, in candidate order, exactly the candidates whose id is among the extracted ids; none when no id is extracted |
| Citations.DistinctFileIds | src/renderer/pages/chat/index.tsx:301-303 | the cited file ids are distinct, are exactly the file ids of the cited chunks, and keep chunk order |
| Citations.SelectFiles | src/renderer/pages/chat/index.tsx:304 | the cited files are, in file order, exactly the candidate files whose id is among the cited file ids |
| Citations.Renumber | src/renderer/pages/chat/index.tsx:316-322 | the persisted chunks are numbered 1..k in order and keep each chunk's id and content |
| Citations.NumberFrom | src/renderer/pages/chat/index.tsx:317-321 | numbering from `first` gives the i-th chunk the number first + i and keeps its id and content |
| Citations.Names | src/renderer/pages/chat/index.tsx:315 | the persisted file list is the cited files' names, in order |
| Citations.Resolve | src/renderer/pages/chat/index.tsx:297-322 | the citations are numbered 1..k, cite only extracted ids, keep file order, and are empty when the reply cites nothing |
| Citations.ResolvedChunksAreCitedCandidates | src/renderer/pages/chat/index.tsx:297-300 | the resolved chunks are the renumbered subsequence of candidates whose id was cited |
| Citations.ResolvedFilesAreSourcesOfCitedChunks | src/renderer/pages/chat/index.tsx:301-304 | a candidate file is cited exactly when it holds a cited candidate chunk |
| Citations.ExampleResolution | src/renderer/pages/chat/index.tsx:297-322 | citing A and B among A, B, C gives chunks A=1, B=2 and the files of A and B |
| Knowledge.FileName | src/renderer/pages/chat/index.tsx:268 | the entry's file name is the name of the first file with the chunk's file id, and is absent when no file has that id |
| Knowledge.EntriesFrom | src/renderer/pages/chat/index.tsx:266-271 | each context entry carries its number, the chunk's id and content, and its file's name |
| Knowledge.Augment | src/renderer/pages/chat/index.tsx:237-277 | with no collections the prompt is sent unchanged with no chunks or files; otherwise the chunks are the search result, the files are looked up by the distinct file ids, and every chunk becomes an entry numbered by its 1-based retrieval index, followed by the prompt as objective |
| Knowledge.RequestedFileIdsAreDistinctSources | src/renderer/pages/chat/index.tsx:248-251 | the ids handed to the file lookup are distinct, cover exactly the chunks' files, and appear in order of first retrieval |
| Knowledge.ContextNumbersIdentifyChunks | src/renderer/pages/chat/index.tsx:266-271 | each number 1..n labels exactly one context entry, and that entry is the n-th retrieved chunk |
| ChatTurn.ModelName | src/renderer/pages/chat/index.tsx:228 | the recorded model is the mapping's entry for the label (an absent label looked up as the empty string) when that entry exists and is non-empty, and the label itself otherwise |
| ChatTurn.FolderRef | src/renderer/pages/chat/index.tsx:197 | a new chat is filed in the current folder when there is one with a non-empty id, and in none otherwise |
| ChatTurn.Submit | src/renderer/pages/chat/index.tsx:186-232 | a blank prompt does nothing. Otherwise the temporary chat is created with the 50-character summary in the current folder and replaced by the new id, or an existing chat's summary is updated and its keyword cleared. The placeholder message carries the prompt, an empty reply, the model settings and isActive 1 |
| ChatTurn.Complete | src/renderer/pages/chat/index.tsx:279-330 | the update always targets the turn's message with isActive 0. A failure with blank output carries nothing else and records no usage. Otherwise reply, reasoning, tokens and citations are stored, exactly one usage record is made, and the message and the usage carry the same token counts, taken from the result when non-zero and from the counters otherwise |
| ChatTurn.ZeroTokenCountFallsBack | src/renderer/pages/chat/index.tsx:294-296 | counts of zero from the service are replaced by the counters' values over the prompt and the content |
| ChatTurn.CompletionCitesOnlyCandidates | src/renderer/pages/chat/index.tsx:297-322 | the stored citations are the turn's candidates selected by the ids extracted from the content, numbered 1..k |
| ChatTurn.NoOutputFailureOnlyDeactivates | src/renderer/pages/chat/index.tsx:284-292 | an error with whitespace-only or missing content and reasoning changes only isActive and records no usage |
| ChatTurn.PartialOutputIsKept | src/renderer/pages/chat/index.tsx:284-314 | an error with some visible content still stores the reply and records usage |
| ChatTurn.OnCallback | src/renderer/pages/chat/index.tsx:340-349 | tool calls set the running tool; completion ends loading and clears the tool; an error ends loading and is shown exactly when not aborted |
| ChatTurn.RunCallbacks | src/renderer/pages/chat/index.tsx:331-349 | the service's callbacks applied in order: at most one notification each, tool-call updates alone never change loading or notify, and a final completion leaves the chat not loading with no running tool |
| ChatTurn.TerminalCallbackEndsLoading | src/renderer/pages/chat/index.tsx:331 | after a completion or an error followed only by tool-call updates, the chat is not loading |
| ChatTurn.ToolCallsKeepIdle | src/renderer/pages/chat/index.tsx:340-342 | tool-call updates never set loading |
| ChatTurn.NotificationsCountUnabortedFailures | src/renderer/pages/chat/index.tsx:343-348 | the number of error notifications equals the number of non-aborted failures |
| ChatTurn.OnReading | src/renderer/pages/chat/index.tsx:334-339 | a fragment is appended with missing parts as empty text, and an auto-scroll is requested exactly when the user is not scrolling |
| ChatTurn.RunTurn | src/renderer/pages/chat/index.tsx:186-332 | a turn runs exactly for a non-blank prompt; the placeholder holds the prompt and is created active, the completion deactivates that same message, the prompt is sent unchanged exactly when no collection is attached, and the usage names the provider and the message's model; the provider is read when the turn starts, while the source reads it at completion (:325) |
| ChatTurn.TurnFinalisesItsMessage | src/renderer/pages/chat/index.tsx:186-332 | a blank prompt runs no turn; otherwise the message created active is the one deactivated, and the usage names the model the message was created with |
| ChatTurn.NoCollectionsNoCitations | src/renderer/pages/chat/index.tsx:237-241 | without collections the prompt goes out unchanged and no chunk or file is recorded as cited |
| ChatTurn.FallbackCountsUserPrompt | src/renderer/pages/chat/index.tsx:294 | the fallback input count is taken over the user's prompt, not the augmented one |

## Left out

- Debounce timing: the 100/300/400 ms waits and the `maxWait` ceilings. Each scroll-handler run is one `Scroll` event on the element's metrics at that moment. A debounced call is a request that is later run or cancelled, with no clock.
- The `if (ref.current)` checks in the scroll handlers. The model assumes the element exists.
- Scroll offsets and heights are integers. The DOM reports them as JavaScript numbers, which may be fractional.
- Text.Summary: counts characters (Unicode scalar values). `substring` counts UTF-16 code units, so a prompt with characters outside the Basic Multilingual Plane gets a shorter summary in the source.
- Text.IsBlank: its definition is assumed, because the validators utility is not part of this model.
- `updateMessage`, `updateStates` and `appendReply` are store calls. The model computes the records handed to them. It assumes `updateStates` merges the given fields, and it does not model how replies accumulate in the store.
- Persistence and navigation side effects: creating and updating the chat, `moveChatCollections`/`setChatCollections`, `navigate`, `openFolder`, `deleteStage`, `clearTrace`, `setKeyword`, and the `loading: true` update at `:222`. `Submit` only records which of these happen, through its flags and its chat action.
- Anchor scrolling after the message list loads (`scrollIntoView`, `:163-166`). When there is no anchor, the load's `scrollToBottom()` is the `ForcedScroll` event.
- The literal prompt template, JSON parse/stringify and the knowledge-cache call `cacheChunks`. The outgoing prompt is modelled as structure: `Knowledge.OutgoingPrompt`.
- A rejected knowledge search or file lookup, which propagates out of `onSubmit` uncaught. The retrieval parameters are total functions.
- Async ordering of the service callbacks, and what the chat service does on abort. Telemetry (`ingestEvent`) and the error text of `notifyError`.
- The page's rendering, the split-pane layout, routing, and the aside footer (`src/renderer/components/layout/aside/Footer.tsx`). These are user-interface code with no logic to model.
- ChatTurn.RunTurn: reads the provider name when the turn starts. The source reads `chatService.provider.name` when the turn completes (`:325`). The two differ only if the provider is switched while a reply streams, and the model has no notion of time.
- Token truthiness: `NaN` counts are not modelled. A supplied count is either absent or an integer, and zero is the only falsy integer.
