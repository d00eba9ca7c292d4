/** The chat turn of the extension host as a function of the host's state: the set-up that
    `handleChatMessage` runs when a user message arrives, and the effect of each event of the
    run stream it starts. Remote results, fresh ids and clock readings are inputs. */
module ChatTurn {
  import opened Types
  import opened Text
  import opened AccountStore
  import opened ConversationMerge
  import opened FileContext
  import opened Protocol

  /** A streaming run the host started on a thread; `aborted` records that its abort
      controller fired. */
  datatype Run = Run(threadId: string, aborted: bool)

  /** What the stream callbacks of the last started turn work on: the turn's account, its
      conversation and the assistant placeholder message. */
  datatype ActiveTurn = ActiveTurn(accountId: string, conversation: Conversation, placeholder: Message)

  /** The part of the host a chat turn reads and writes: the stored accounts, whether an
      OpenAI client exists, the current run, the active turn, the messages posted to the
      webview and the remote calls made. */
  datatype HostState = HostState(
    accounts: seq<Account>,
    clientReady: bool,
    currentRun: Option<Run>,
    active: Option<ActiveTurn>,
    sent: seq<HostMessage>,
    calls: seq<RemoteCall>)

  /** The answers of the OpenAI service and of the workspace during one turn:
      `probeRetrieveOk` and `probeThread` for the thread check of `getConversation`,
      `retrieveOk` and `newThread` for the thread check of the turn itself, `docs` for the
      relative path of the generated documentation, `uploads` for each file context's upload,
      and `messageError` for the failure of posting the user message to the thread. */
  datatype TurnEnv = TurnEnv(
    probeRetrieveOk: bool,
    probeThread: Outcome<string>,
    retrieveOk: bool,
    newThread: Outcome<string>,
    workspaceOpen: bool,
    docs: Outcome<string>,
    uploads: seq<Outcome<string>>,
    messageError: Option<string>)

  /** Fresh ids and clock readings of one turn: each message the turn makes has its own id
      and its own clock reading, and `today` is the date a new conversation gets. */
  datatype TurnIds = TurnIds(userId: string, placeholderId: string, errorId: string,
                            userTime: string, placeholderTime: string, errorTime: string, today: string)

  /** A fresh id and the time, for the system message an event may create. */
  datatype Fresh = Fresh(id: string, now: string)

  /** How the set-up of a turn ended. `ThreadLost`: the replacement thread of the
      conversation lookup could not be created, and the error left the handler. */
  datatype TurnReport =
    | NoClient
    | ThreadLost
    | Started(conversation: Conversation)
    | Failed(conversation: Conversation, reason: string)

  datatype Turn = Turn(host: HostState, report: TurnReport)

  const NO_CLIENT := "OpenAI client not initialized"
  const NO_WORKSPACE := "No workspace folder open"
  const DEFAULT_FAILURE := "Failed to process chat message"
  const SEARCH_PREFIX := "Search in the attached files! "

  // ---------------------------------------------------------------- messages

  function Attachments(fileContexts: seq<string>): (r: seq<Attachment>)
    ensures |r| == |fileContexts|
    ensures forall i :: 0 <= i < |r| ==>
      r[i] == Attachment("", fileContexts[i], AttachmentFileName(fileContexts[i]))
  {
    if fileContexts == [] then []
    else [Attachment("", fileContexts[0], AttachmentFileName(fileContexts[0]))] + Attachments(fileContexts[1..])
  }

  function UserMessage(p: ChatPayload, ids: TurnIds): Message {
    Message(ids.userId, p.message, Some(FromUser), Some(ids.userTime), p.modelName, p.assistantName,
            Some(Attachments(p.fileContexts)))
  }

  function SystemMessage(id: string, reason: string, now: string, modelName: Option<string>, assistantName: Option<string>): Message {
    Message(id, "Error: " + reason, Some(FromSystem), Some(now), modelName, assistantName, None)
  }

  function Placeholder(p: ChatPayload, ids: TurnIds): Message {
    Message(ids.placeholderId, "", Some(FromAssistant), Some(ids.placeholderTime), p.modelName, p.assistantName, None)
  }

  /** A message a turn adds to report a failure. */
  predicate IsErrorNotice(m: Message) {
    m.sender == Some(FromSystem) && StartsWith(m.content, "Error: ")
  }

  /** The text the user message is posted to the thread with. */
  function SubmitContent(p: ChatPayload): (r: string)
    ensures p.fileContexts == [] ==> r == p.message
    ensures p.fileContexts != [] ==> r == SEARCH_PREFIX + p.message
  {
    if |p.fileContexts| > 0 then SEARCH_PREFIX + p.message else p.message
  }

  // ---------------------------------------------------------------- persistence

  /** The notification `updateConversation` posts: one for a known account, none otherwise. */
  function PersistNotice(accounts: seq<Account>, accountId: string, c: Conversation): seq<HostMessage> {
    if LastAccountWithId(accounts, accountId).Some? then [UpdateConversation(c, Some(accountId))] else []
  }

  /** `updateConversation(accountId, c)`. */
  function Persist(h: HostState, accountId: string, c: Conversation): HostState {
    h.(accounts := UpdatedAccounts(h.accounts, accountId, c),
       sent := h.sent + PersistNotice(h.accounts, accountId, c))
  }

  // ---------------------------------------------------------------- threads

  /** The thread check of `getConversation`: with a client, a conversation with a thread id
      has its thread retrieved; when that fails a new thread replaces it and the conversation
      is persisted. None: the new thread could not be created. */
  function Probe(h: HostState, accountId: string, c: Conversation, env: TurnEnv): (HostState, Option<Conversation>) {
    if !Truthy(c.threadId) || !h.clientReady then (h, Some(c))
    else
      var h1 := h.(calls := h.calls + [RetrieveThread(c.threadId.value)]);
      if env.probeRetrieveOk then (h1, Some(c))
      else
        var h2 := h1.(calls := h1.calls + [CreateThread]);
        match env.probeThread
        case Fail(_) => (h2, None)
        case Ok(t) => (Persist(h2, accountId, c.(threadId := Some(t))), Some(c.(threadId := Some(t))))
  }

  /** A new thread for the turn, persisted with the conversation. */
  function NewThread(h: HostState, accountId: string, c: Conversation, env: TurnEnv): (r: (HostState, Outcome<Conversation>))
    ensures r.1.Ok? ==> r.1.value.threadId.Some?
  {
    var h1 := h.(calls := h.calls + [CreateThread]);
    match env.newThread
    case Fail(m) => (h1, Fail(m))
    case Ok(t) => (Persist(h1, accountId, c.(threadId := Some(t))), Ok(c.(threadId := Some(t))))
  }

  /** The thread check of the turn: no thread id, or one whose retrieval fails, means a new
      thread. */
  function EnsureThread(h: HostState, accountId: string, c: Conversation, env: TurnEnv): (r: (HostState, Outcome<Conversation>))
    ensures r.1.Ok? ==> r.1.value.threadId.Some?
  {
    if !Truthy(c.threadId) then NewThread(h, accountId, c, env)
    else
      var h1 := h.(calls := h.calls + [RetrieveThread(c.threadId.value)]);
      if env.retrieveOk then (h1, Ok(c)) else NewThread(h1, accountId, c, env)
  }

  // ---------------------------------------------------------------- uploads

  /** `uploadFileToOpenAI(path)`: fails without a workspace or without a client; otherwise
      the file goes up under its retagged base name and `outcome` is the answer (the failure
      to read the file, or the service's). */
  function UploadPath(h: HostState, path: string, outcome: Outcome<string>, env: TurnEnv): (HostState, Outcome<string>) {
    if !env.workspaceOpen then (h, Fail(NO_WORKSPACE))
    else if !h.clientReady then (h, Fail(NO_CLIENT))
    else (h.(calls := h.calls + [UploadFile(path, UploadName(path))]), outcome)
  }

  /** One file context of the upload step: the "Source Code" entry first generates the
      documentation and uploads that file instead. */
  function UploadContext(h: HostState, context: string, outcome: Outcome<string>, env: TurnEnv): (HostState, Outcome<string>) {
    if context == SOURCE_CODE then
      if !env.workspaceOpen then (h.(sent := h.sent + [ErrorMessage(NO_WORKSPACE)]), Fail(NO_WORKSPACE))
      else
        match env.docs
        case Fail(m) => (h.(sent := h.sent + [ErrorMessage("Error generating documentation: " + m)]), Fail(m))
        case Ok(relativePath) => UploadPath(h, relativePath, outcome, env)
    else UploadPath(h, context, outcome, env)
  }

  /** Every file context is uploaded, in order; the results are kept per context. */
  function UploadAll(h: HostState, contexts: seq<string>, outcomes: seq<Outcome<string>>, env: TurnEnv): (r: (HostState, seq<Outcome<string>>))
    requires |outcomes| == |contexts|
    ensures |r.1| == |contexts|
    decreases |contexts|
  {
    if contexts == [] then (h, [])
    else
      var n := |contexts| - 1;
      var prior := UploadAll(h, contexts[..n], outcomes[..n], env);
      var last := UploadContext(prior.0, contexts[n], outcomes[n], env);
      (last.0, prior.1 + [last.1])
  }

  /** `Promise.all` of the uploads: the file ids, or the first failure in context order. */
  function AllUploaded(results: seq<Outcome<string>>): (r: Outcome<seq<string>>)
    ensures r.Ok? ==> |r.value| == |results| && forall i :: 0 <= i < |results| ==> results[i] == Ok(r.value[i])
    ensures r.Fail? ==> exists i :: 0 <= i < |results| && results[i] == Fail(r.message)
                                  && forall j :: 0 <= j < i ==> results[j].Ok?
  {
    if results == [] then Ok([])
    else match results[0]
      case Fail(m) => Fail(m)
      case Ok(id) =>
        match AllUploaded(results[1..])
        case Fail(m) => Fail(m)
        case Ok(ids) => Ok([id] + ids)
  }

  // ---------------------------------------------------------------- the turn

  /** The catch block: one system message with the reason, the conversation persisted, and
      the typing indicator switched off. */
  function CatchPath(h: HostState, p: ChatPayload, ids: TurnIds, c: Conversation, reason: string): Turn {
    var failed := c.(messages := c.messages + [SystemMessage(ids.errorId, reason, ids.errorTime, p.modelName, p.assistantName)]);
    var h1 := Persist(h, p.accountId, failed);
    Turn(h1.(sent := h1.sent + [UpdateTypingStatus(false)]), Failed(failed, reason))
  }

  /** The try block of the turn, on the looked-up conversation `c`: the user message is
      added and shown, and the thread ensured before the message is submitted. */
  function TryBlock(h: HostState, p: ChatPayload, env: TurnEnv, ids: TurnIds, c: Conversation): Turn
    requires |env.uploads| == |p.fileContexts|
  {
    var withUser := c.(messages := c.messages + [UserMessage(p, ids)], lastMessage := p.message);
    var h1 := h.(sent := h.sent + [UpdateTypingStatus(true), UpdateConversation(withUser, None)]);
    var threaded := EnsureThread(h1, p.accountId, withUser, env);
    match threaded.1
    case Fail(m) => CatchPath(threaded.0, p, ids, withUser, m)
    case Ok(c2) => Submit(threaded.0, p, env, ids, c2)
  }

  /** The rest of the try block, on the conversation `c` with its thread: the uploads, the
      thread message and the start of the streaming run. */
  function Submit(h: HostState, p: ChatPayload, env: TurnEnv, ids: TurnIds, c: Conversation): Turn
    requires |env.uploads| == |p.fileContexts| && c.threadId.Some?
  {
    var uploaded := UploadAll(h, p.fileContexts, env.uploads, env);
    match AllUploaded(uploaded.1)
    case Fail(m) => CatchPath(uploaded.0, p, ids, c, m)
    case Ok(fileIds) =>
      var thread := c.threadId.value;
      var h2 := uploaded.0.(calls := uploaded.0.calls + [CreateThreadMessage(thread, SubmitContent(p), fileIds)]);
      match env.messageError
      case Some(m) => CatchPath(h2, p, ids, c, m)
      case None =>
        Turn(h2.(calls := h2.calls + [StreamRun(thread, p.assistantId, p.modelId)],
                 currentRun := Some(Run(thread, false)),
                 active := Some(ActiveTurn(p.accountId, c, Placeholder(p, ids)))),
             Started(c))
  }

  /** `handleChatMessage` up to the point where it returns, the stream subscribed. */
  function ChatMessageTurn(h: HostState, p: ChatPayload, env: TurnEnv, ids: TurnIds): Turn
    requires |env.uploads| == |p.fileContexts|
  {
    if !h.clientReady then Turn(h.(sent := h.sent + [ErrorMessage(NO_CLIENT)]), NoClient)
    else
      var c := LookupConversation(h.accounts, p.accountId, p.conversationId, ids.today);
      var probed := Probe(h, p.accountId, c, env);
      match probed.1
      case None => Turn(probed.0, ThreadLost)
      case Some(c1) => TryBlock(probed.0, p, env, ids, c1)
  }

  // ---------------------------------------------------------------- stream events

  /** A template-literal rendering of an optional string. */
  function Show(s: Option<string>): string {
    match s
    case Some(v) => v
    case None => "undefined"
  }

  /** The block one code-interpreter output contributes: its logs for a "logs" output,
      nothing otherwise. */
  function LogBlock(output: ToolOutput): string {
    if output.outputType == "logs" then "\nOutput:\n```\n" + Show(output.logs) + "\n```\n" else ""
  }

  /** The text a list of code-interpreter outputs contributes: one block per "logs" output. */
  function OutputsText(outputs: seq<ToolOutput>): string
    decreases |outputs|
  {
    if outputs == [] then ""
    else
      var n := |outputs| - 1;
      OutputsText(outputs[..n]) + LogBlock(outputs[n])
  }

  lemma OutputsTextSnoc(outputs: seq<ToolOutput>, i: nat)
    requires i < |outputs|
    ensures OutputsText(outputs[..i + 1]) == OutputsText(outputs[..i]) + LogBlock(outputs[i])
  {
    assert outputs[..i + 1][..i] == outputs[..i];
  }

  /** Appending the block of the next output extends the text of the outputs so far. */
  lemma LogBlockAppended(r: string, prefix: string, outputs: seq<ToolOutput>, i: nat)
    requires i < |outputs| && r == prefix + OutputsText(outputs[..i])
    ensures outputs[i].outputType == "logs" ==>
      r + "\nOutput:\n```\n" + Show(outputs[i].logs) + "\n```\n" == prefix + OutputsText(outputs[..i + 1])
    ensures outputs[i].outputType != "logs" ==> r == prefix + OutputsText(outputs[..i + 1])
  {
    OutputsTextSnoc(outputs, i);
    ConcatAssoc(prefix, OutputsText(outputs[..i]), LogBlock(outputs[i]));
    if outputs[i].outputType == "logs" {
      ConcatAssoc(r, "\nOutput:\n```\n", Show(outputs[i].logs));
      ConcatAssoc(r, "\nOutput:\n```\n" + Show(outputs[i].logs), "\n```\n");
    } else {
      assert LogBlock(outputs[i]) == [];
      assert OutputsText(outputs[..i]) + [] == OutputsText(outputs[..i]);
    }
  }

  /** The text a code-interpreter delta appends to the placeholder. */
  function ToolCallText(ci: CodeInterpreter): string {
    (if Truthy(ci.input) then "\n```\n" + ci.input.value + "\n```\n" else "")
      + (match ci.outputs case Some(os) => OutputsText(os) case None => "")
  }

  /** A delta of a code-interpreter tool call with its `code_interpreter` part. */
  predicate IsCodeDelta(ev: StreamEvent) {
    ev.ToolCallDelta? && ev.deltaType == "code_interpreter" && ev.codeInterpreter.Some?
  }

  /** The effect of one stream event on the host. */
  function OnEvent(h: HostState, ev: StreamEvent, f: Fresh): (r: HostState)
    requires h.active.Some?
    ensures r.active.Some?
  {
    var t := h.active.value;
    var pl := t.placeholder;
    match ev
    case TextCreated => h.(sent := h.sent + [UpdateTypingStatus(true)])
    case TextDelta(v) =>
      var pl2 := pl.(content := pl.content + Show(v));
      h.(active := Some(t.(placeholder := pl2)),
         sent := h.sent + [UpdateMessage(pl.id, pl2.content, pl.modelName, pl.assistantName, pl.timestamp)])
    case ToolCallCreated(kind) => h.(sent := h.sent + [ToolCall(kind)])
    case ToolCallDelta(kind, ci) =>
      if kind == "code_interpreter" && ci.Some? then
        var pl2 := pl.(content := pl.content + ToolCallText(ci.value));
        h.(active := Some(t.(placeholder := pl2)),
           sent := h.sent + [UpdateMessage(pl.id, pl2.content, None, None, None)])
      else h
    case RunStepDone(lastError) =>
      if lastError.Some? then
        var sys := SystemMessage(f.id, lastError.value, f.now, pl.modelName, pl.assistantName);
        var c := t.conversation.(messages := t.conversation.messages + [sys]);
        h.(active := Some(t.(conversation := c)),
           sent := h.sent + [UpdateMessage(sys.id, sys.content, None, None, None)])
      else h
    case ToolCallDone => h
    case End =>
      var c := if pl.content != "" then t.conversation.(messages := t.conversation.messages + [pl]) else t.conversation;
      var h1 := h.(active := Some(t.(conversation := c)), sent := h.sent + [UpdateTypingStatus(false)]);
      Persist(h1, t.accountId, c)
    case StreamError(m) =>
      var reason := match m case Some(text) => text case None => DEFAULT_FAILURE;
      var sys := SystemMessage(f.id, reason, f.now, pl.modelName, pl.assistantName);
      var c := t.conversation.(messages := t.conversation.messages + [sys]);
      var h1 := h.(active := Some(t.(conversation := c)), sent := h.sent + [UpdateTypingStatus(false)]);
      Persist(h1, t.accountId, c)
  }

  /** A sequence of stream events, handled in arrival order. */
  function OnEvents(h: HostState, evs: seq<StreamEvent>, fs: seq<Fresh>): (r: HostState)
    requires h.active.Some? && |fs| == |evs|
    ensures r.active.Some?
    decreases |evs|
  {
    if evs == [] then h
    else
      var n := |evs| - 1;
      OnEvent(OnEvents(h, evs[..n], fs[..n]), evs[n], fs[n])
  }
}
