/** One chat turn as the chat page drives it: the submit preamble (blank
    guard, chat resolution, placeholder message), the streaming callbacks,
    and the completion that finalises the message and records usage.
    Persistence, the model service and the token counters are outside this
    model; the records handed to them are what it computes. */
module ChatTurn {
  import opened Wrappers
  import opened Seqs
  import opened Text
  import opened Citations
  import opened Knowledge
  import ScrollFollow

  /** The chat a submission starts from: the unsaved temporary chat (the
      sentinel id) or a persisted one. */
  datatype ChatRef = TempChat | SavedChat(id: string)

  /** What the model service's context reports when a turn starts. */
  datatype Invocation = Invocation(
    modelLabel: Option<string>,
    temperature: real,
    maxTokens: int,
    provider: string
  )

  /** The persistence call that resolves the target chat. */
  datatype ChatAction =
    | CreateChat(summary: string, folderId: Option<string>)
    | UpdateChat(id: string, summary: string)

  /** The placeholder message created before the model is called. */
  datatype NewMessage = NewMessage(
    prompt: string,
    reply: string,
    chatId: string,
    model: Option<string>,
    temperature: real,
    maxTokens: int,
    isActive: int
  )

  /** Everything a non-blank submission does before calling the model.
      `clearsKeyword` is the reset of the chat's search keyword, and
      `dropsTempStage` the removal of the temporary chat's staged state. */
  datatype Submission = Submission(
    action: ChatAction,
    chatId: string,
    clearsKeyword: bool,
    dropsTempStage: bool,
    message: NewMessage
  )

  /** `modelMapping[model.label || ''] || model.label`: a mapped display
      name when one is configured and non-empty, the label otherwise. */
  function ModelName(mapping: map<string, string>, modelLabel: Option<string>): (r: Option<string>)
    ensures var key := modelLabel.GetOr("");
            key in mapping && mapping[key] != "" ==> r == Some(mapping[key])
    ensures var key := modelLabel.GetOr("");
            !(key in mapping && mapping[key] != "") ==> r == modelLabel
  {
    var key := modelLabel.GetOr("");
    if key in mapping && mapping[key] != "" then Some(mapping[key]) else modelLabel
  }

  /** `folder?.id || null`. */
  function FolderRef(folderId: Option<string>): (r: Option<string>)
    ensures r.Some? <==> folderId.Some? && folderId.value != ""
    ensures r.Some? ==> r == folderId
  {
    if folderId.Some? && folderId.value != "" then folderId else None
  }

  /** The submit preamble. `createdChatId` is the id the persistence layer
      assigns when the temporary chat is promoted. */
  function Submit(prompt: string, active: ChatRef, folderId: Option<string>, createdChatId: string,
                  inv: Invocation, mapping: map<string, string>): (r: Option<Submission>)
    ensures r.None? <==> AllTrimmable(prompt)
    ensures r.Some? ==>
              && r.value.action.summary <= prompt
              && |r.value.action.summary| == (if |prompt| < SummaryLength then |prompt| else SummaryLength)
              && r.value.message == NewMessage(prompt, "", r.value.chatId, ModelName(mapping, inv.modelLabel),
                                               inv.temperature, inv.maxTokens, 1)
    ensures r.Some? && active.TempChat? ==>
              && r.value.action == CreateChat(Summary(prompt), FolderRef(folderId))
              && r.value.chatId == createdChatId
              && r.value.dropsTempStage && !r.value.clearsKeyword
    ensures r.Some? && active.SavedChat? ==>
              && r.value.action == UpdateChat(active.id, Summary(prompt))
              && r.value.chatId == active.id
              && r.value.clearsKeyword && !r.value.dropsTempStage
  {
    TrimEmptyIffAllTrimmable(prompt);
    if Trim(prompt) == [] then None
    else
      var summary := Summary(prompt);
      var (action, chatId, clears, drops) :=
        match active
        case TempChat => (CreateChat(summary, FolderRef(folderId)), createdChatId, false, true)
        case SavedChat(id) => (UpdateChat(id, summary), id, true, false);
      var model := ModelName(mapping, inv.modelLabel);
      Some(Submission(action, chatId, clears, drops,
                      NewMessage(prompt, "", chatId, model, inv.temperature, inv.maxTokens, 1)))
  }

  /** The final message of the model service. Counts are optional and
      may be zero. */
  datatype ChatResult = ChatResult(
    error: bool,
    content: Option<string>,
    reasoning: Option<string>,
    inputTokens: Option<int>,
    outputTokens: Option<int>
  )

  /** Helpers defined outside the chat page: the token counters, the
      citation-id extractor and the splitting of a reply into its normal
      and reasoning parts. */
  datatype Collaborators = Collaborators(
    countInput: string -> int,
    countOutput: string -> int,
    extractCitationIds: string -> seq<string>,
    normalContent: Option<string> -> string,
    reasoningContent: (Option<string>, Option<string>) -> string
  )

  /** The fields handed to `updateMessage`; absent fields are left as stored. */
  datatype MessageUpdate = MessageUpdate(
    id: string,
    isActive: int,
    reply: Option<string>,
    reasoning: Option<string>,
    inputTokens: Option<int>,
    outputTokens: Option<int>,
    citedFiles: Option<seq<string>>,
    citedChunks: Option<seq<CitedChunk>>
  )

  /** The record appended to the usage store. */
  datatype UsageRecord = UsageRecord(provider: string, model: Option<string>, inputTokens: int, outputTokens: int)

  datatype Completion = Completion(update: MessageUpdate, usage: Option<UsageRecord>)

  /** What the completion handler knows about its turn, captured at submission. */
  datatype TurnContext = TurnContext(
    messageId: string,
    prompt: string,
    provider: string,
    modelLabel: Option<string>,
    mapping: map<string, string>,
    knowledge: Augmentation
  )

  /** An update that only marks the message finished. */
  function Deactivation(id: string): MessageUpdate
  {
    MessageUpdate(id, 0, None, None, None, None, None, None)
  }

  /** JavaScript truthiness of an optional count: present and non-zero. */
  predicate Truthy(n: Option<int>)
  {
    n.Some? && n.value != 0
  }

  /** `supplied || fallback`. */
  function TokensOr(supplied: Option<int>, fallback: int): int
  {
    if Truthy(supplied) then supplied.value else fallback
  }

  /** The turn failed without producing anything. */
  predicate FailedWithoutOutput(result: ChatResult)
  {
    result.error && IsBlank(result.content) && IsBlank(result.reasoning)
  }

  /** `onChatComplete` without its final `updateStates` (that is the `Completed` case of `OnCallback`). */
  function Complete(turn: TurnContext, c: Collaborators, result: ChatResult): (r: Completion)
    ensures r.update.id == turn.messageId && r.update.isActive == 0
    ensures r.usage.None? <==> FailedWithoutOutput(result)
    ensures FailedWithoutOutput(result) ==> r.update == Deactivation(turn.messageId)
    ensures !FailedWithoutOutput(result) ==>
              var u := r.usage.value;
              && r.update.inputTokens == Some(u.inputTokens)
              && r.update.outputTokens == Some(u.outputTokens)
              && u.inputTokens == (if Truthy(result.inputTokens) then result.inputTokens.value
                                   else c.countInput(turn.prompt))
              && u.outputTokens == (if Truthy(result.outputTokens) then result.outputTokens.value
                                    else c.countOutput(result.content.GetOr("")))
              && u.provider == turn.provider
              && u.model == ModelName(turn.mapping, turn.modelLabel)
              && r.update.reply == Some(c.normalContent(result.content))
              && r.update.reasoning == Some(c.reasoningContent(result.content, result.reasoning))
              && r.update.citedChunks.Some? && r.update.citedFiles.Some?
  {
    if FailedWithoutOutput(result) then
      Completion(Deactivation(turn.messageId), None)
    else
      var inputTokens := TokensOr(result.inputTokens, c.countInput(turn.prompt));
      var outputTokens := TokensOr(result.outputTokens, c.countOutput(result.content.GetOr("")));
      var cited := Resolve(c.extractCitationIds(result.content.GetOr("")), turn.knowledge.chunks, turn.knowledge.files);
      var update := MessageUpdate(
        turn.messageId, 0,
        Some(c.normalContent(result.content)),
        Some(c.reasoningContent(result.content, result.reasoning)),
        Some(inputTokens), Some(outputTokens),
        Some(Names(cited.files)), Some(cited.chunks));
      Completion(update, Some(UsageRecord(turn.provider, ModelName(turn.mapping, turn.modelLabel), inputTokens, outputTokens)))
  }

  /** A count of zero reported by the service is treated like a missing
      one: the local counter is used instead. */
  lemma ZeroTokenCountFallsBack(turn: TurnContext, c: Collaborators, result: ChatResult)
    requires !FailedWithoutOutput(result)
    requires result.inputTokens == Some(0) && result.outputTokens == Some(0)
    ensures Complete(turn, c, result).usage.value.inputTokens == c.countInput(turn.prompt)
    ensures Complete(turn, c, result).usage.value.outputTokens == c.countOutput(result.content.GetOr(""))
  {
  }

  /** The persisted citations are the resolution of the reply's cited ids
      against the turn's knowledge: chunks numbered 1..k in candidate
      order, and the names of the candidate files that hold them. */
  lemma CompletionCitesOnlyCandidates(turn: TurnContext, c: Collaborators, result: ChatResult)
    requires !FailedWithoutOutput(result)
    ensures var ids := c.extractCitationIds(result.content.GetOr(""));
            var u := Complete(turn, c, result).update;
            && u.citedChunks == Some(Renumber(SelectChunks(turn.knowledge.chunks, ids)))
            && (forall i :: 0 <= i < |u.citedChunks.value| ==>
                  u.citedChunks.value[i].seqNo == i + 1 && u.citedChunks.value[i].id in ids)
            && u.citedFiles == Some(Names(SelectFiles(turn.knowledge.files, DistinctFileIds(SelectChunks(turn.knowledge.chunks, ids)))))
  {
  }

  /** A failed turn that produced nothing is finalised without touching any
      field but `isActive`, and no usage is recorded. */
  lemma {:induction false} NoOutputFailureOnlyDeactivates(turn: TurnContext, c: Collaborators, result: ChatResult)
    requires result.error
    requires result.content.None? || AllTrimmable(result.content.value)
    requires result.reasoning.None? || AllTrimmable(result.reasoning.value)
    ensures var r := Complete(turn, c, result);
            && r.usage.None?
            && r.update.isActive == 0
            && r.update.reply.None? && r.update.reasoning.None?
            && r.update.inputTokens.None? && r.update.outputTokens.None?
            && r.update.citedFiles.None? && r.update.citedChunks.None?
  {
    if result.content.Some? {
      TrimEmptyIffAllTrimmable(result.content.value);
    }
    if result.reasoning.Some? {
      TrimEmptyIffAllTrimmable(result.reasoning.value);
    }
    assert FailedWithoutOutput(result);
  }

  /** Partial output still counts: an errored turn whose content has a
      visible character is finalised in full and its usage recorded. */
  lemma {:induction false} PartialOutputIsKept(turn: TurnContext, c: Collaborators, result: ChatResult, i: int)
    requires result.error && result.content.Some?
    requires 0 <= i < |result.content.value| && !IsTrimmable(result.content.value[i])
    ensures Complete(turn, c, result).usage.Some?
    ensures Complete(turn, c, result).update.reply == Some(c.normalContent(result.content))
  {
    TrimEmptyIffAllTrimmable(result.content.value);
  }

  /** Per-chat UI state touched by a turn. */
  datatype ChatStates = ChatStates(loading: bool, runningTool: Option<string>)

  /** The model service's callbacks after the call starts. */
  datatype Callback =
    | ToolCalls(toolName: string)
    | Completed
    | Failed(aborted: bool)

  /** `updateStates` for one callback: the returned flag is whether an
      error is shown to the user. */
  function OnCallback(s: ChatStates, cb: Callback): (r: (ChatStates, bool))
    ensures cb.ToolCalls? ==> r.0 == s.(runningTool := Some(cb.toolName)) && !r.1
    ensures cb.Completed? ==> r.0 == ChatStates(false, None) && !r.1
    ensures cb.Failed? ==> r.0 == s.(loading := false) && (r.1 <==> !cb.aborted)
  {
    match cb
    case ToolCalls(name) => (s.(runningTool := Some(name)), false)
    case Completed => (ChatStates(false, None), false)
    case Failed(aborted) => (s.(loading := false), !aborted)
  }

  /** Handles callbacks in order; the count is the number of error
      notifications shown. */
  function RunCallbacks(s: ChatStates, cbs: seq<Callback>): (r: (ChatStates, nat))
    ensures r.1 <= |cbs|
    ensures (forall i :: 0 <= i < |cbs| ==> cbs[i].ToolCalls?) ==> r.0.loading == s.loading && r.1 == 0
    ensures cbs != [] && cbs[|cbs| - 1].Completed? ==> r.0 == ChatStates(false, None)
    decreases |cbs|
  {
    if cbs == [] then (s, 0)
    else
      var (s', shown) := OnCallback(s, cbs[0]);
      var (last, n) := RunCallbacks(s', cbs[1..]);
      (last, n + if shown then 1 else 0)
  }

  /** Once a terminal callback (completion or error) has run and only
      tool-call updates follow it, the chat is no longer loading. */
  lemma {:induction false} TerminalCallbackEndsLoading(s: ChatStates, cbs: seq<Callback>, k: nat)
    requires k < |cbs| && (cbs[k].Completed? || cbs[k].Failed?)
    requires forall i :: k < i < |cbs| ==> cbs[i].ToolCalls?
    ensures !RunCallbacks(s, cbs).0.loading
    decreases |cbs|
  {
    if k > 0 {
      TerminalCallbackEndsLoading(OnCallback(s, cbs[0]).0, cbs[1..], k - 1);
    } else {
      ToolCallsKeepIdle(OnCallback(s, cbs[0]).0, cbs[1..]);
    }
  }

  lemma {:induction false} ToolCallsKeepIdle(s: ChatStates, cbs: seq<Callback>)
    requires !s.loading
    requires forall i :: 0 <= i < |cbs| ==> cbs[i].ToolCalls?
    ensures !RunCallbacks(s, cbs).0.loading
    decreases |cbs|
  {
    if cbs != [] {
      ToolCallsKeepIdle(OnCallback(s, cbs[0]).0, cbs[1..]);
    }
  }

  /** Exactly one notification per non-aborted failure; aborts stay silent. */
  lemma {:induction false} NotificationsCountUnabortedFailures(s: ChatStates, cbs: seq<Callback>)
    ensures RunCallbacks(s, cbs).1 == |Filter((cb: Callback) => cb.Failed? && !cb.aborted, cbs)|
    decreases |cbs|
  {
    if cbs != [] {
      NotificationsCountUnabortedFailures(OnCallback(s, cbs[0]).0, cbs[1..]);
    }
  }

  /** The arguments of `appendReply` for one streamed fragment. */
  datatype Append = Append(messageId: string, content: string, reasoning: string)

  /** `onReading`: append the fragment and, unless the user is scrolling,
      request an auto-scroll. */
  function OnReading(messageId: string, content: Option<string>, reasoning: Option<string>,
                     scroll: ScrollFollow.State): (r: (Append, ScrollFollow.State))
    ensures r.0 == Append(messageId, content.GetOr(""), reasoning.GetOr(""))
    ensures r.1.isUserScrolling == scroll.isUserScrolling
    ensures scroll.isUserScrolling ==> r.1.pending == scroll.pending
    ensures !scroll.isUserScrolling ==> r.1.pending
  {
    (Append(messageId, content.GetOr(""), reasoning.GetOr("")), ScrollFollow.Step(scroll, ScrollFollow.ContentArrived))
  }

  /** A whole turn, from the submitted prompt to the completion record. */
  datatype TurnOutcome = TurnOutcome(submission: Submission, knowledge: Augmentation, completion: Completion)

  /** `createdChatId` and `messageId` are the ids the persistence layer
      assigns; `collectionIds` are the collections attached to the target chat. */
  function RunTurn(prompt: string, active: ChatRef, folderId: Option<string>, createdChatId: string,
                   inv: Invocation, mapping: map<string, string>, messageId: string,
                   collectionIds: seq<string>, retrieval: Retrieval, c: Collaborators,
                   result: ChatResult): (r: Option<TurnOutcome>)
    ensures r.None? <==> AllTrimmable(prompt)
    ensures r.Some? ==>
              && r.value.submission.message.prompt == prompt
              && r.value.submission.message.isActive == 1
              && r.value.completion.update.id == messageId
              && r.value.completion.update.isActive == 0
              && (collectionIds == [] <==> r.value.knowledge.prompt == Plain(prompt))
              && (r.value.completion.usage.Some? ==>
                    r.value.completion.usage.value.provider == inv.provider
                    && r.value.completion.usage.value.model == r.value.submission.message.model)
  {
    match Submit(prompt, active, folderId, createdChatId, inv, mapping)
    case None => None
    case Some(sub) =>
      var knowledge := Augment(prompt, collectionIds, retrieval);
      var turn := TurnContext(messageId, prompt, inv.provider, inv.modelLabel, mapping, knowledge);
      Some(TurnOutcome(sub, knowledge, Complete(turn, c, result)))
  }

  /** End to end: a blank prompt does nothing; otherwise the placeholder
      message is created active and the completion deactivates that same
      message, and the recorded usage names the model the message was
      created with. */
  lemma TurnFinalisesItsMessage(prompt: string, active: ChatRef, folderId: Option<string>, createdChatId: string,
                                inv: Invocation, mapping: map<string, string>, messageId: string,
                                collectionIds: seq<string>, retrieval: Retrieval, c: Collaborators,
                                result: ChatResult)
    ensures var t := RunTurn(prompt, active, folderId, createdChatId, inv, mapping, messageId,
                             collectionIds, retrieval, c, result);
            && (t.None? <==> AllTrimmable(prompt))
            && (t.Some? ==>
                  && t.value.submission.message.isActive == 1
                  && t.value.completion.update.id == messageId
                  && t.value.completion.update.isActive == 0
                  && (t.value.completion.usage.Some? ==>
                        t.value.completion.usage.value.model == t.value.submission.message.model))
  {
  }

  /** Without knowledge collections the prompt goes out unchanged and,
      whatever the reply cites, nothing is recorded as cited. */
  lemma NoCollectionsNoCitations(prompt: string, active: ChatRef, folderId: Option<string>, createdChatId: string,
                                 inv: Invocation, mapping: map<string, string>, messageId: string,
                                 retrieval: Retrieval, c: Collaborators, result: ChatResult)
    requires !AllTrimmable(prompt) && !FailedWithoutOutput(result)
    ensures var t := RunTurn(prompt, active, folderId, createdChatId, inv, mapping, messageId,
                             [], retrieval, c, result);
            && t.Some?
            && t.value.knowledge.prompt == Plain(prompt)
            && t.value.completion.update.citedChunks == Some([])
            && t.value.completion.update.citedFiles == Some([])
  {
  }

  /** The fallback input count is taken over the user's prompt, not over
      the augmented prompt that was sent. */
  lemma FallbackCountsUserPrompt(prompt: string, active: ChatRef, folderId: Option<string>, createdChatId: string,
                                 inv: Invocation, mapping: map<string, string>, messageId: string,
                                 collectionIds: seq<string>, retrieval: Retrieval, c: Collaborators,
                                 result: ChatResult)
    requires !AllTrimmable(prompt) && !FailedWithoutOutput(result) && !Truthy(result.inputTokens)
    ensures var t := RunTurn(prompt, active, folderId, createdChatId, inv, mapping, messageId,
                             collectionIds, retrieval, c, result);
            t.Some? && t.value.completion.usage.value.inputTokens == c.countInput(prompt)
  {
  }
}
