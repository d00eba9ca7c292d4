/** The extension host's `VSCodeEventHandler` as an object: its fields, the store operations
    it runs through the account manager, the chat turn and its stream callbacks, and the
    dispatch of webview messages. Each method is proved to leave the object in the state the
    functions of `ChatTurn` describe, so every property proved about those functions holds
    of the object. */
module Orchestrator {
  import opened Types
  import opened Text
  import opened AccountStore
  import opened ConversationMerge
  import opened FileContext
  import opened Protocol
  import opened ChatTurn

  datatype ToastLevel = Information | Warning | Error

  /** A notification shown by the editor. */
  datatype Toast = Toast(level: ToastLevel, text: string)

  /** Work the handler hands to parts of the extension this model leaves out: connecting the
      OpenAI client for an account, refreshing the model and assistant lists, and opening a
      workspace file in an editor. */
  datatype Deferred = InitializeClient(accountId: string) | RefreshLists | OpenDocument(filePath: string)

  /** The notification a "showToast" message asks for; an unknown type shows nothing. */
  function ToastFor(toastType: string, text: string): (r: seq<Toast>)
    ensures |r| <= 1
    ensures r == [] <==> toastType !in {"success", "warning", "error"}
    ensures r != [] ==> r[0].text == text
  {
    if toastType == "success" then [Toast(Information, text)]
    else if toastType == "warning" then [Toast(Warning, text)]
    else if toastType == "error" then [Toast(Error, text)]
    else []
  }

  /** The run after `cancelCurrentRun`: aborted when there is one and a client exists. */
  function Cancelled(run: Option<Run>, clientReady: bool): (r: Option<Run>)
    ensures r.Some? <==> run.Some?
    ensures r.Some? ==> r.value.threadId == run.value.threadId
  {
    if run.Some? && clientReady then Some(run.value.(aborted := true)) else run
  }

  /** Cancelling aborts exactly when both the run and the client are present; otherwise it
      changes nothing, and cancelling twice is cancelling once. */
  lemma CancelledSpec(run: Option<Run>, clientReady: bool)
    ensures Cancelled(run, clientReady) != run <==> run.Some? && clientReady && !run.value.aborted
    ensures Cancelled(run, clientReady).Some? && clientReady ==> Cancelled(run, clientReady).value.aborted
    ensures Cancelled(Cancelled(run, clientReady), clientReady) == Cancelled(run, clientReady)
  {
  }

  /** Everything the dispatch of webview messages reads and writes: the part a chat turn
      works on, the selected account, the secret store, the notifications shown, the work
      handed on and the assistant and model last chosen. */
  datatype HandlerState = HandlerState(
    host: HostState,
    selected: Option<string>,
    secrets: map<string, string>,
    toasts: seq<Toast>,
    deferred: seq<Deferred>,
    currentAssistant: Option<string>,
    currentModel: Option<string>)

  /** `storeAccount(account)`: its record replaces the first entry with its id or is
      appended, and a non-empty key goes to the secret store. */
  function Stored(s: HandlerState, account: Account): HandlerState {
    s.(host := s.host.(accounts := Upsert(s.host.accounts, Record(account))),
       secrets := if Truthy(account.apiKey) then s.secrets[SecretKey(account.id) := account.apiKey.value] else s.secrets)
  }

  /** `getAccounts`: the stored accounts and the selection are posted. */
  function Posted(s: HandlerState): HandlerState {
    s.(host := s.host.(sent := s.host.sent + [UpdateAccounts(s.host.accounts, s.selected)]))
  }

  /** `deleteAccount(accountId)`: its key, every entry with its id, and the selection when
      it named the account are removed. */
  function AccountDeleted(s: HandlerState, accountId: string): HandlerState {
    s.(host := s.host.(accounts := WithoutAccount(s.host.accounts, accountId)),
       secrets := s.secrets - {SecretKey(accountId)},
       selected := if s.selected == Some(accountId) then None else s.selected)
  }

  /** `createNewConversation(selectedAccount, conversation)`: the webview's copy of the
      selected account, with the conversation pushed, is stored and the accounts are
      posted; without a selected account nothing happens. */
  function ConversationAdded(s: HandlerState, selected: Option<Account>, c: Conversation): HandlerState {
    match selected
    case None => s
    case Some(account) => Posted(Stored(s, account.(conversations := account.conversations + [c])))
  }

  /** `deleteConversation(accountId, conversationId)`: the first stored account with the id
      loses every conversation with the deleted id and the accounts are posted; an unknown
      account changes nothing. */
  function ConversationRemoved(s: HandlerState, accountId: string, conversationId: string): HandlerState {
    var accounts := s.host.accounts;
    var i := FindAccountIndex(accounts, accountId);
    if i == -1 then s
    else Posted(Stored(s, accounts[i].(conversations := WithoutConversation(accounts[i].conversations, conversationId))))
  }

  /** `cancelCurrentRun`. */
  function RunCancelled(s: HandlerState): HandlerState {
    s.(host := s.host.(currentRun := Cancelled(s.host.currentRun, s.host.clientReady)))
  }

  /** `deleteAllAccounts`: the key of every stored account goes, the list is emptied and the
      selection cleared. */
  function DataRemoved(s: HandlerState): HandlerState {
    s.(host := s.host.(accounts := []), selected := None, secrets := s.secrets - SecretKeysOf(s.host.accounts))
  }

  /** `initClient`: the accounts are posted, and the client of a selected account is
      requested. */
  function ClientRequested(s: HandlerState): HandlerState {
    var posted := Posted(s);
    posted.(deferred := posted.deferred + (match s.selected case Some(id) => [InitializeClient(id)] case None => []))
  }

  /** The messages whose handling reads or writes the account manager's stores. */
  predicate StoreMessage(msg: WebviewMessage) {
    msg.NewConversation? || msg.CreateAccount? || msg.DeleteAccount? || msg.DeleteConversation?
    || msg.GetAccounts? || msg.SelectAccount? || msg.RemoveExtensionData? || msg.InitClient?
  }

  /** The effect of one webview message on the handler: `handleWebviewMessage`. The answers
      of the service for a chat message (`env`, `ids`) and the workspace's file list
      (`files`) are inputs. A "removeExtensionData" message has no `break`: after the
      accounts are removed it goes on to cancel the current run, as "cancelRun" does. */
  function Dispatch(s: HandlerState, msg: WebviewMessage, env: TurnEnv, ids: TurnIds, files: seq<string>): HandlerState
    requires msg.SendChatMessage? ==> |env.uploads| == |msg.payload.fileContexts|
  {
    match msg
    case ShowToast(toastType, text) => s.(toasts := s.toasts + ToastFor(toastType, text))
    case NewConversation(selected, c) => ConversationAdded(s, selected, c)
    case CreateAccount(account) => Stored(s, account)
    case DeleteAccount(accountId) => AccountDeleted(s, accountId)
    case DeleteConversation(accountId, conversationId) => ConversationRemoved(s, accountId, conversationId)
    case GetAccounts => Posted(s)
    case OpenFile(filePath) => s.(deferred := s.deferred + [OpenDocument(filePath)])
    case SelectAccount(accountId) => s.(selected := Some(accountId), deferred := s.deferred + [InitializeClient(accountId)])
    case RefreshModelsAndAssistants => s.(deferred := s.deferred + [RefreshLists])
    case SendChatMessage(p) => s.(host := ChatMessageTurn(s.host, p, env, ids).host)
    case UpdateAssistant(assistantId) => s.(currentAssistant := Some(assistantId))
    case UpdateModel(modelId) => s.(currentModel := Some(modelId))
    case RemoveExtensionData => RunCancelled(DataRemoved(s))
    case CancelRun => RunCancelled(s)
    case GetWorkspaceFiles => s.(host := s.host.(sent := s.host.sent + [UpdateWorkspaceFiles(files)]))
    case InitClient => ClientRequested(s)
    case Unhandled(_) => s
  }

  /** `VSCodeEventHandler`: the account manager it persists through, whether an OpenAI client
      exists, the assistant and model last chosen, the current run, the turn the stream
      callbacks work on, and what it has posted, called, shown and handed on. */
  class EventHandler {
    const accountManager: AccountManager
    var clientReady: bool
    var currentAssistant: Option<string>
    var currentModel: Option<string>
    var currentRun: Option<Run>
    var active: Option<ActiveTurn>
    var outbox: seq<HostMessage>
    var calls: seq<RemoteCall>
    var toasts: seq<Toast>
    var deferred: seq<Deferred>

    constructor (accountManager: AccountManager)
      ensures this.accountManager == accountManager
      ensures !clientReady && currentAssistant == None && currentModel == None
      ensures currentRun == None && active == None
      ensures outbox == [] && calls == [] && toasts == [] && deferred == []
    {
      this.accountManager := accountManager;
      clientReady := false;
      currentAssistant := None;
      currentModel := None;
      currentRun := None;
      active := None;
      outbox := [];
      calls := [];
      toasts := [];
      deferred := [];
    }

    ghost predicate Valid()
      reads this, accountManager
    {
      accountManager.Valid()
    }

    /** The part of the handler a chat turn reads and writes. */
    function State(): HostState
      reads this, accountManager
    {
      HostState(accountManager.GetAccounts(), clientReady, currentRun, active, outbox, calls)
    }

    /** Everything the dispatch of webview messages reads and writes. */
    function Snapshot(): HandlerState
      reads this, accountManager
    {
      HandlerState(State(), accountManager.GetSelectedAccount(), accountManager.secrets, toasts, deferred,
                   currentAssistant, currentModel)
    }

    /** The part a chat turn leaves alone: the selection, the secrets, the toasts, the handed-on
        work and the chosen assistant and model. */
    function Rest(): (Option<string>, map<string, string>, seq<Toast>, seq<Deferred>, Option<string>, Option<string>)
      reads this, accountManager
    {
      (accountManager.GetSelectedAccount(), accountManager.secrets, toasts, deferred, currentAssistant, currentModel)
    }

    // ------------------------------------------------------------ the store

    /** `updateConversation`: the conversation is merged into the last account with the id,
        in place, that entry's record is stored, and the conversation is posted; an unknown
        account is neither stored nor notified. */
    method UpdateConversation(accountId: string, c: Conversation)
      requires Valid()
      modifies this, accountManager
      ensures Valid() && Rest() == old(Rest())
      ensures State() == Persist(old(State()), accountId, c)
    {
      var accounts := accountManager.GetAccounts();
      var k := LastAccountIndex(accounts, accountId);
      if k >= 0 {
        var account := accounts[k];
        accountManager.SetStoredConversations(k, Merge(account.conversations, c));
        accountManager.StoreAccount(accountManager.GetAccounts()[k]);
        outbox := outbox + [HostMessage.UpdateConversation(c, Some(accountId))];
      }
    }

    /** `getAccounts`: posts the stored accounts and the selection. */
    method PostAccounts()
      modifies this
      ensures Snapshot() == Posted(old(Snapshot()))
    {
      outbox := outbox + [UpdateAccounts(accountManager.GetAccounts(), accountManager.GetSelectedAccount())];
    }

    /** `createAccount`. */
    method CreateAccount(account: Account)
      requires Valid()
      modifies accountManager
      ensures Valid() && Snapshot() == Stored(old(Snapshot()), account)
    {
      accountManager.StoreAccount(account);
    }

    /** `deleteAccount`. */
    method DeleteAccount(accountId: string)
      requires Valid()
      modifies accountManager
      ensures Valid() && Snapshot() == AccountDeleted(old(Snapshot()), accountId)
    {
      accountManager.DeleteAccount(accountId);
    }

    /** `deleteConversation`. */
    method DeleteConversation(accountId: string, conversationId: string)
      requires Valid()
      modifies this, accountManager
      ensures Valid() && Snapshot() == ConversationRemoved(old(Snapshot()), accountId, conversationId)
    {
      var accounts := accountManager.GetAccounts();
      var accountIndex := FindAccountIndex(accounts, accountId);
      if accountIndex != -1 {
        var account := accounts[accountIndex];
        account := account.(conversations := WithoutConversation(account.conversations, conversationId));
        accountManager.StoreAccount(account);
        PostAccounts();
      }
    }

    /** `createNewConversation`. */
    method CreateNewConversation(selected: Option<Account>, c: Conversation)
      requires Valid()
      modifies this, accountManager
      ensures Valid() && Snapshot() == ConversationAdded(old(Snapshot()), selected, c)
    {
      if selected.Some? {
        var account := selected.value.(conversations := selected.value.conversations + [c]);
        accountManager.StoreAccount(account);
        PostAccounts();
      }
    }

    /** `cancelCurrentRun`: aborts the current run only when there is one and a client. */
    method CancelCurrentRun()
      modifies this
      ensures Snapshot() == RunCancelled(old(Snapshot()))
    {
      if currentRun.Some? && clientReady {
        currentRun := Some(currentRun.value.(aborted := true));
      }
    }

    /** `initClient`: posts the accounts and, when an account is selected, hands on the
        initialization of its client. */
    method InitClient()
      modifies this
      ensures Snapshot() == ClientRequested(old(Snapshot()))
    {
      var selectedAccountId := accountManager.GetSelectedAccount();
      PostAccounts();
      if selectedAccountId.Some? {
        deferred := deferred + [InitializeClient(selectedAccountId.value)];
      }
    }

    // ------------------------------------------------------------ threads

    /** `getConversation`: the stored conversation or the default one, whose lost thread is
        replaced while a client exists. None: the new thread could not be created. */
    method GetConversation(accountId: string, conversationId: string, today: string, env: TurnEnv) returns (r: Option<Conversation>)
      requires Valid()
      modifies this, accountManager
      ensures Valid() && Rest() == old(Rest())
      ensures State() == Probe(old(State()), accountId, LookupConversation(old(State()).accounts, accountId, conversationId, today), env).0
      ensures r == Probe(old(State()), accountId, LookupConversation(old(State()).accounts, accountId, conversationId, today), env).1
    {
      var conversation := LookupConversation(accountManager.GetAccounts(), accountId, conversationId, today);
      if Truthy(conversation.threadId) && clientReady {
        calls := calls + [RetrieveThread(conversation.threadId.value)];
        if !env.probeRetrieveOk {
          calls := calls + [CreateThread];
          if env.probeThread.Fail? {
            return None;
          }
          conversation := conversation.(threadId := Some(env.probeThread.value));
          UpdateConversation(accountId, conversation);
        }
      }
      r := Some(conversation);
    }

    /** A new thread for the turn's conversation, persisted with it. */
    method CreateThreadFor(accountId: string, c: Conversation, env: TurnEnv) returns (r: Outcome<Conversation>)
      requires Valid()
      modifies this, accountManager
      ensures Valid() && Rest() == old(Rest())
      ensures State() == NewThread(old(State()), accountId, c, env).0
      ensures r == NewThread(old(State()), accountId, c, env).1
    {
      calls := calls + [CreateThread];
      match env.newThread {
        case Fail(m) =>
          r := Fail(m);
        case Ok(t) =>
          var conversation := c.(threadId := Some(t));
          UpdateConversation(accountId, conversation);
          r := Ok(conversation);
      }
    }

    /** The thread check of the turn. */
    method EnsureThreadFor(accountId: string, c: Conversation, env: TurnEnv) returns (r: Outcome<Conversation>)
      requires Valid()
      modifies this, accountManager
      ensures Valid() && Rest() == old(Rest())
      ensures State() == EnsureThread(old(State()), accountId, c, env).0
      ensures r == EnsureThread(old(State()), accountId, c, env).1
    {
      if !Truthy(c.threadId) {
        r := CreateThreadFor(accountId, c, env);
      } else {
        calls := calls + [RetrieveThread(c.threadId.value)];
        if env.retrieveOk {
          r := Ok(c);
        } else {
          r := CreateThreadFor(accountId, c, env);
        }
      }
    }

    // ------------------------------------------------------------ uploads

    /** `uploadFileToOpenAI`: the file goes up under its base name, retagged. */
    method UploadFileToOpenAI(filePath: string, outcome: Outcome<string>, env: TurnEnv) returns (r: Outcome<string>)
      modifies this
      ensures State() == UploadPath(old(State()), filePath, outcome, env).0
      ensures r == UploadPath(old(State()), filePath, outcome, env).1
      ensures Rest() == old(Rest())
    {
      if !env.workspaceOpen {
        return Fail(NO_WORKSPACE);
      }
      if !clientReady {
        return Fail(NO_CLIENT);
      }
      var fileName := Basename(filePath);
      var finalFileName := FinalFileName(fileName);
      calls := calls + [UploadFile(filePath, finalFileName)];
      r := outcome;
    }

    /** One file context: "Source Code" generates the documentation and uploads it. */
    method UploadContextFile(context: string, outcome: Outcome<string>, env: TurnEnv) returns (r: Outcome<string>)
      modifies this
      ensures State() == UploadContext(old(State()), context, outcome, env).0
      ensures r == UploadContext(old(State()), context, outcome, env).1
      ensures Rest() == old(Rest())
    {
      if context == SOURCE_CODE {
        if !env.workspaceOpen {
          outbox := outbox + [ErrorMessage(NO_WORKSPACE)];
          return Fail(NO_WORKSPACE);
        }
        match env.docs {
          case Fail(m) =>
            outbox := outbox + [ErrorMessage("Error generating documentation: " + m)];
            r := Fail(m);
          case Ok(relativePath) =>
            r := UploadFileToOpenAI(relativePath, outcome, env);
        }
      } else {
        r := UploadFileToOpenAI(context, outcome, env);
      }
    }

    /** The uploads of a turn, one file context after another. */
    method UploadContexts(contexts: seq<string>, outcomes: seq<Outcome<string>>, env: TurnEnv) returns (results: seq<Outcome<string>>)
      requires |outcomes| == |contexts|
      modifies this
      ensures State() == UploadAll(old(State()), contexts, outcomes, env).0
      ensures results == UploadAll(old(State()), contexts, outcomes, env).1
      ensures Rest() == old(Rest())
    {
      results := [];
      var i := 0;
      while i < |contexts|
        invariant 0 <= i <= |contexts|
        invariant State() == UploadAll(old(State()), contexts[..i], outcomes[..i], env).0
        invariant results == UploadAll(old(State()), contexts[..i], outcomes[..i], env).1
        invariant Rest() == old(Rest())
      {
        assert contexts[..i + 1][..i] == contexts[..i] && outcomes[..i + 1][..i] == outcomes[..i];
        var r := UploadContextFile(contexts[i], outcomes[i], env);
        results := results + [r];
        i := i + 1;
      }
      assert contexts[..i] == contexts && outcomes[..i] == outcomes;
    }

    // ------------------------------------------------------------ the turn

    /** The catch block of the turn. */
    method CatchError(p: ChatPayload, ids: TurnIds, c: Conversation, reason: string) returns (report: TurnReport)
      requires Valid()
      modifies this, accountManager
      ensures Valid() && Rest() == old(Rest())
      ensures State() == CatchPath(old(State()), p, ids, c, reason).host
      ensures report == CatchPath(old(State()), p, ids, c, reason).report
    {
      var systemErrorMessage := SystemMessage(ids.errorId, reason, ids.errorTime, p.modelName, p.assistantName);
      var conversation := c.(messages := c.messages + [systemErrorMessage]);
      UpdateConversation(p.accountId, conversation);
      outbox := outbox + [UpdateTypingStatus(false)];
      report := Failed(conversation, reason);
    }

    /** The uploads, the thread message and the start of the run. */
    method SubmitTurn(p: ChatPayload, env: TurnEnv, ids: TurnIds, c: Conversation) returns (report: TurnReport)
      requires Valid() && |env.uploads| == |p.fileContexts| && c.threadId.Some?
      modifies this, accountManager
      ensures Valid() && Rest() == old(Rest())
      ensures State() == Submit(old(State()), p, env, ids, c).host
      ensures report == Submit(old(State()), p, env, ids, c).report
    {
      var results := UploadContexts(p.fileContexts, env.uploads, env);
      match AllUploaded(results) {
        case Fail(m) =>
          report := CatchError(p, ids, c, m);
        case Ok(fileIds) =>
          var thread := c.threadId.value;
          calls := calls + [CreateThreadMessage(thread, SubmitContent(p), fileIds)];
          if env.messageError.Some? {
            report := CatchError(p, ids, c, env.messageError.value);
          } else {
            var assistantMessage := Placeholder(p, ids);
            calls := calls + [StreamRun(thread, p.assistantId, p.modelId)];
            active := Some(ActiveTurn(p.accountId, c, assistantMessage));
            currentRun := Some(Run(thread, false));
            report := Started(c);
          }
      }
    }

    /** The try block of the turn. */
    method ChatTry(p: ChatPayload, env: TurnEnv, ids: TurnIds, c: Conversation) returns (report: TurnReport)
      requires Valid() && |env.uploads| == |p.fileContexts|
      modifies this, accountManager
      ensures Valid() && Rest() == old(Rest())
      ensures State() == TryBlock(old(State()), p, env, ids, c).host
      ensures report == TryBlock(old(State()), p, env, ids, c).report
    {
      var conversation := c.(messages := c.messages + [UserMessage(p, ids)], lastMessage := p.message);
      outbox := outbox + [UpdateTypingStatus(true), HostMessage.UpdateConversation(conversation, None)];
      var threaded := EnsureThreadFor(p.accountId, conversation, env);
      match threaded {
        case Fail(m) =>
          report := CatchError(p, ids, conversation, m);
        case Ok(withThread) =>
          report := SubmitTurn(p, env, ids, withThread);
      }
    }

    /** `handleChatMessage` up to its return: the turn's set-up, with the remote answers,
        ids and clock readings as inputs. */
    method HandleChatMessage(p: ChatPayload, env: TurnEnv, ids: TurnIds) returns (report: TurnReport)
      requires Valid() && |env.uploads| == |p.fileContexts|
      modifies this, accountManager
      ensures Valid() && Rest() == old(Rest())
      ensures State() == ChatMessageTurn(old(State()), p, env, ids).host
      ensures report == ChatMessageTurn(old(State()), p, env, ids).report
    {
      if !clientReady {
        outbox := outbox + [ErrorMessage(NO_CLIENT)];
        return NoClient;
      }
      var conversation := GetConversation(p.accountId, p.conversationId, ids.today, env);
      if conversation.None? {
        return ThreadLost;
      }
      report := ChatTry(p, env, ids, conversation.value);
    }

    // ------------------------------------------------------------ stream callbacks

    /** The code-interpreter text of one tool call delta added to `content`, one output at a
        time. */
    method AppendToolCallText(content: string, ci: CodeInterpreter) returns (r: string)
      ensures r == content + ToolCallText(ci)
    {
      r := content;
      if Truthy(ci.input) {
        r := r + "\n```\n" + ci.input.value + "\n```\n";
      }
      ghost var prefix := r;
      ghost var inputPart := if Truthy(ci.input) then "\n```\n" + ci.input.value + "\n```\n" else "";
      assert prefix == content + inputPart;
      if ci.outputs.Some? {
        var outputs := ci.outputs.value;
        var i := 0;
        while i < |outputs|
          invariant 0 <= i <= |outputs|
          invariant r == prefix + OutputsText(outputs[..i])
        {
          LogBlockAppended(r, prefix, outputs, i);
          if outputs[i].outputType == "logs" {
            r := r + "\nOutput:\n```\n" + Show(outputs[i].logs) + "\n```\n";
          }
          i := i + 1;
        }
        assert outputs[..i] == outputs;
        ConcatAssoc(content, inputPart, OutputsText(outputs));
      } else {
        assert inputPart + "" == inputPart;
      }
    }

    /** The callback of one stream event. */
    method HandleStreamEvent(ev: StreamEvent, f: Fresh)
      requires Valid() && active.Some?
      modifies this, accountManager
      ensures Valid() && Rest() == old(Rest()) && active.Some?
      ensures State() == OnEvent(old(State()), ev, f)
    {
      var t := active.value;
      var assistantMessage := t.placeholder;
      match ev {
        case TextCreated =>
          outbox := outbox + [UpdateTypingStatus(true)];
        case TextDelta(v) =>
          assistantMessage := assistantMessage.(content := assistantMessage.content + Show(v));
          active := Some(t.(placeholder := assistantMessage));
          outbox := outbox + [UpdateMessage(assistantMessage.id, assistantMessage.content, assistantMessage.modelName,
                                            assistantMessage.assistantName, assistantMessage.timestamp)];
        case ToolCallCreated(kind) =>
          outbox := outbox + [ToolCall(kind)];
        case ToolCallDelta(kind, ci) =>
          if kind == "code_interpreter" && ci.Some? {
            var content := AppendToolCallText(assistantMessage.content, ci.value);
            assistantMessage := assistantMessage.(content := content);
            active := Some(t.(placeholder := assistantMessage));
            outbox := outbox + [UpdateMessage(assistantMessage.id, assistantMessage.content, None, None, None)];
          }
        case RunStepDone(lastError) =>
          if lastError.Some? {
            var systemErrorMessage := SystemMessage(f.id, lastError.value, f.now, assistantMessage.modelName, assistantMessage.assistantName);
            var conversation := t.conversation.(messages := t.conversation.messages + [systemErrorMessage]);
            active := Some(t.(conversation := conversation));
            outbox := outbox + [UpdateMessage(systemErrorMessage.id, systemErrorMessage.content, None, None, None)];
          }
        case ToolCallDone =>
        case End =>
          outbox := outbox + [UpdateTypingStatus(false)];
          var conversation := t.conversation;
          if assistantMessage.content != "" {
            conversation := conversation.(messages := conversation.messages + [assistantMessage]);
          }
          active := Some(t.(conversation := conversation));
          UpdateConversation(t.accountId, conversation);
        case StreamError(m) =>
          var reason := if m.Some? then m.value else DEFAULT_FAILURE;
          var systemErrorMessage := SystemMessage(f.id, reason, f.now, assistantMessage.modelName, assistantMessage.assistantName);
          var conversation := t.conversation.(messages := t.conversation.messages + [systemErrorMessage]);
          active := Some(t.(conversation := conversation));
          outbox := outbox + [UpdateTypingStatus(false)];
          UpdateConversation(t.accountId, conversation);
      }
    }

    /** The events of the run stream, handled in arrival order. */
    method ConsumeStream(evs: seq<StreamEvent>, fs: seq<Fresh>)
      requires Valid() && active.Some? && |fs| == |evs|
      modifies this, accountManager
      ensures Valid() && Rest() == old(Rest())
      ensures State() == OnEvents(old(State()), evs, fs)
    {
      var i := 0;
      while i < |evs|
        invariant 0 <= i <= |evs|
        invariant Valid() && Rest() == old(Rest()) && active.Some?
        invariant State() == OnEvents(old(State()), evs[..i], fs[..i])
      {
        assert evs[..i + 1][..i] == evs[..i] && fs[..i + 1][..i] == fs[..i];
        HandleStreamEvent(evs[i], fs[i]);
        i := i + 1;
      }
      assert evs[..i] == evs && fs[..i] == fs;
    }

    // ------------------------------------------------------------ dispatch

    /** `handleWebviewMessage`: one webview message, by its type. */
    method HandleWebviewMessage(msg: WebviewMessage, env: TurnEnv, ids: TurnIds, files: seq<string>)
      requires Valid()
      requires msg.SendChatMessage? ==> |env.uploads| == |msg.payload.fileContexts|
      modifies this, accountManager
      ensures Valid() && Snapshot() == Dispatch(old(Snapshot()), msg, env, ids, files)
    {
      if msg.SendChatMessage? {
        var report := HandleChatMessage(msg.payload, env, ids);
      } else if StoreMessage(msg) {
        HandleStoreMessage(msg, env, ids, files);
      } else {
        HandleLocalMessage(msg, env, ids, files);
      }
    }

    /** The messages that go through the account manager. */
    method HandleStoreMessage(msg: WebviewMessage, env: TurnEnv, ids: TurnIds, files: seq<string>)
      requires Valid() && StoreMessage(msg)
      modifies this, accountManager
      ensures Valid() && Snapshot() == Dispatch(old(Snapshot()), msg, env, ids, files)
    {
      match msg {
        case NewConversation(selected, c) =>
          CreateNewConversation(selected, c);
        case CreateAccount(account) =>
          CreateAccount(account);
        case DeleteAccount(accountId) =>
          DeleteAccount(accountId);
        case DeleteConversation(accountId, conversationId) =>
          DeleteConversation(accountId, conversationId);
        case GetAccounts =>
          PostAccounts();
        case SelectAccount(accountId) =>
          accountManager.SetSelectedAccount(accountId);
          deferred := deferred + [InitializeClient(accountId)];
        case RemoveExtensionData =>
          accountManager.DeleteAllAccounts();
          CancelCurrentRun();
        case InitClient =>
          InitClient();
      }
    }

    /** The messages that only change the handler's own fields. */
    method HandleLocalMessage(msg: WebviewMessage, env: TurnEnv, ids: TurnIds, files: seq<string>)
      requires !StoreMessage(msg) && !msg.SendChatMessage?
      modifies this
      ensures Snapshot() == Dispatch(old(Snapshot()), msg, env, ids, files)
    {
      match msg {
        case ShowToast(toastType, text) =>
          if toastType == "success" {
            toasts := toasts + [Toast(Information, text)];
          } else if toastType == "warning" {
            toasts := toasts + [Toast(Warning, text)];
          } else if toastType == "error" {
            toasts := toasts + [Toast(Error, text)];
          }
        case OpenFile(filePath) =>
          deferred := deferred + [OpenDocument(filePath)];
        case RefreshModelsAndAssistants =>
          deferred := deferred + [RefreshLists];
        case UpdateAssistant(assistantId) =>
          currentAssistant := Some(assistantId);
        case UpdateModel(modelId) =>
          currentModel := Some(modelId);
        case CancelRun =>
          CancelCurrentRun();
        case GetWorkspaceFiles =>
          outbox := outbox + [UpdateWorkspaceFiles(files)];
        case Unhandled(_) =>
      }
    }
  }
}
