/** The webview's `GlobalStateProvider`: the action creators and the handler of messages from
    the extension. Each of them issues an ordered list of effects, reducer dispatches and
    messages to the extension, computed from the state it was rendered with; the provider
    object applies them in that order. */
module GlobalStateContext {
  import opened Types
  import opened ConversationMerge
  import opened Reducer
  import Protocol

  /** One side effect of an action creator: a dispatch to the reducer or a message posted to
      the extension. */
  datatype Effect = Dispatched(action: Action) | Sent(message: Protocol.WebviewMessage)

  /** The state after one effect: a dispatch is reduced, a message leaves it. */
  function Step(s: GlobalState, e: Effect): GlobalState {
    match e
    case Dispatched(a) => Reduce(s, a)
    case Sent(_) => s
  }

  /** The message one effect posts, if it posts one. */
  function Out(e: Effect): seq<Protocol.WebviewMessage> {
    if e.Sent? then [e.message] else []
  }

  /** The state after the effects, one after another. */
  function Apply(s: GlobalState, effects: seq<Effect>): GlobalState
    decreases |effects|
  {
    if effects == [] then s else Apply(Step(s, effects[0]), effects[1..])
  }

  /** The messages among the effects, in order. */
  function SentMessages(effects: seq<Effect>): seq<Protocol.WebviewMessage>
    decreases |effects|
  {
    if effects == [] then [] else Out(effects[0]) + SentMessages(effects[1..])
  }

  /** `state.accounts.find(acc => acc.id === state.selectedAccountId)`. */
  function SelectedAccountOf(s: GlobalState): (r: Option<Account>)
    ensures r.Some? ==> r.value in s.accounts && s.selectedAccountId == Some(r.value.id)
    ensures r.None? ==> forall a :: a in s.accounts ==> s.selectedAccountId != Some(a.id)
  {
    match s.selectedAccountId
    case None => None
    case Some(id) => FindAccount(s.accounts, id)
  }

  /** The name of the first assistant with the id, if any. */
  function AssistantName(list: seq<AssistantInfo>, id: string): (r: Option<string>)
    ensures r.Some? <==> exists k :: 0 <= k < |list| && list[k].id == id
  {
    var i := FirstIndex(list, (a: AssistantInfo) => a.id, id);
    if i >= 0 then Some(list[i].name) else None
  }

  /** The name of the first model with the id, if any. */
  function ModelName(list: seq<ModelInfo>, id: string): (r: Option<string>)
    ensures r.Some? <==> exists k :: 0 <= k < |list| && list[k].id == id
  {
    var i := FirstIndex(list, (m: ModelInfo) => m.id, id);
    if i >= 0 then Some(list[i].name) else None
  }

  /** `contextItems.filter(item => ['file', 'fileContext', 'sourceCode'].includes(item.type))
      .map(item => item.name)`. */
  function FileContexts(items: seq<ContextItem>): seq<string>
    decreases |items|
  {
    if items == [] then []
    else
      (if items[0].kind in {FileItem, FileContextItem, SourceCodeItem} then [items[0].name] else [])
      + FileContexts(items[1..])
  }

  /** `message.models.map(model => ({ ...model, name: model.id }))`. */
  function NamedById(models: seq<ModelInfo>): (r: seq<ModelInfo>)
    ensures |r| == |models|
    ensures forall k :: 0 <= k < |models| ==> r[k] == models[k].(name := models[k].id)
  {
    if models == [] then [] else [models[0].(name := models[0].id)] + NamedById(models[1..])
  }

  /** The rule the provider keeps `isClientInitialized` to. */
  predicate ClientInitialized(s: GlobalState) {
    |s.models| > 0 && s.selectedAccountId.Some? && !s.isLoading
  }

  // ---------------------------------------------------------------- action creators

  /** `selectAccount(accountId)`: nothing for an empty id or while the client status is not
      idle. */
  function SelectAccountEffects(s: GlobalState, accountId: string): seq<Effect> {
    if accountId == "" || s.openAIClientStatus.status != Idle then []
    else [Dispatched(SetIsLoading(true)), Dispatched(SetError(None)), Dispatched(SetCurrentConversation(None)),
          Dispatched(SetSelectedAccountId(Some(accountId))), Sent(Protocol.SelectAccount(accountId))]
  }

  /** The account `handleCreateAccount` sends, with a fresh id. */
  function NewAccount(s: GlobalState, newId: string): Account {
    Account(newId, s.newAccountName, Some(s.newAccountApiKey), [], [], [])
  }

  /** `handleCreateAccount()`: nothing while the name or the key is empty. */
  function CreateAccountEffects(s: GlobalState, newId: string): seq<Effect> {
    if s.newAccountName == "" || s.newAccountApiKey == "" then []
    else [Dispatched(SetNewAccountName("")), Dispatched(SetNewAccountApiKey("")), Dispatched(SetIsLoading(true)),
          Sent(Protocol.CreateAccount(NewAccount(s, newId)))]
  }

  /** `handleDeleteAccount(accountId)`. */
  function DeleteAccountEffects(accountId: string): seq<Effect> {
    [Dispatched(SetIsLoading(true)), Sent(Protocol.DeleteAccount(accountId))]
  }

  /** `handleRemoveExtensionData()`: the request first, then the local accounts, selection and
      account form cleared. */
  function RemoveExtensionDataEffects(): seq<Effect> {
    [Sent(Protocol.RemoveExtensionData), Dispatched(UpdateAccounts([], Some(None))),
     Dispatched(SetNewAccountName("")), Dispatched(SetNewAccountApiKey(""))]
  }

  /** The payload `handleSendChatMessage` sends for the selected account and the current
      conversation. */
  function ChatPayloadFor(s: GlobalState, account: Account, c: Conversation, content: string, items: seq<ContextItem>): Protocol.ChatPayload {
    Protocol.ChatPayload(account.id, c.id, content,
      s.selectedAssistant, AssistantName(s.assistants, s.selectedAssistant),
      s.selectedModel, ModelName(s.models, s.selectedModel),
      FileContexts(items))
  }

  /** `handleSendChatMessage(content, items)`: nothing without a current conversation or a
      selected account. */
  function SendChatMessageEffects(s: GlobalState, content: string, items: seq<ContextItem>): seq<Effect> {
    match (s.currentConversation, SelectedAccountOf(s))
    case (Some(c), Some(account)) => [Sent(Protocol.SendChatMessage(ChatPayloadFor(s, account, c, content, items)))]
    case _ => []
  }

  /** `handleDeleteConversation(conversationId)`: nothing without a selected account; the
      current conversation is cleared only when it is the deleted one. */
  function DeleteConversationEffects(s: GlobalState, conversationId: string): seq<Effect> {
    match SelectedAccountOf(s)
    case None => []
    case Some(account) =>
      (if s.currentConversation.Some? && s.currentConversation.value.id == conversationId
       then [Dispatched(SetCurrentConversation(None))] else [])
      + [Sent(Protocol.DeleteConversation(account.id, conversationId))]
  }

  /** The conversation `createNewConversation` makes: the given title, or "Conversation <id>"
      for an empty one; no messages and no thread. */
  function NewConversation(title: string, newId: string, today: string): (c: Conversation)
    ensures c.id == newId && c.date == today && c.messages == [] && c.lastMessage == "" && c.threadId == None
    ensures title != "" ==> c.title == title
    ensures title == "" ==> c.title == "Conversation " + newId
  {
    Conversation(newId, if title != "" then title else "Conversation " + newId, today, [], "", None)
  }

  /** `createNewConversation(title)`: nothing without a selected account; the new
      conversation becomes current before it is sent with the selected account. */
  function NewConversationEffects(s: GlobalState, title: string, newId: string, today: string): seq<Effect> {
    match SelectedAccountOf(s)
    case None => []
    case Some(account) =>
      var c := NewConversation(title, newId, today);
      [Dispatched(SetCurrentConversation(Some(c))), Sent(Protocol.NewConversation(Some(account), c))]
  }

  /** `setSelectedAssistant(assistantId)`. */
  function SetSelectedAssistantEffects(assistantId: string): seq<Effect> {
    [Dispatched(SetSelectedAssistant(assistantId)), Sent(Protocol.UpdateAssistant(assistantId))]
  }

  /** `setSelectedModel(modelId)`. */
  function SetSelectedModelEffects(modelId: string): seq<Effect> {
    [Dispatched(SetSelectedModel(modelId)), Sent(Protocol.UpdateModel(modelId))]
  }

  /** `refreshModelsAndAssistants()`. */
  function RefreshEffects(): seq<Effect> {
    [Dispatched(SetLoadingModelsAndAssistants(true)), Sent(Protocol.RefreshModelsAndAssistants)]
  }

  /** The effect of keeping `isClientInitialized` up to date. */
  function SyncEffects(s: GlobalState): seq<Effect> {
    [Dispatched(SetIsClientInitialized(ClientInitialized(s)))]
  }

  // ---------------------------------------------------------------- messages from the extension

  /** The selection field of "updateAccounts": an absent one leaves the webview's selection. */
  function SelectionOf(selectedAccountId: Option<string>): Option<Option<string>> {
    match selectedAccountId
    case None => None
    case Some(id) => Some(Some(id))
  }

  /** `messageHandler`: the effects of one command from the extension; a command without a
      case does nothing. */
  function InboundEffects(m: Protocol.HostMessage): seq<Effect> {
    match m
    case UpdateAccounts(accounts, selectedAccountId) =>
      [Dispatched(UpdateAccounts(accounts, SelectionOf(selectedAccountId))), Dispatched(SetIsLoading(false))]
    case UpdateConversation(c, _) => [Dispatched(UpdateConversation(c))]
    case UpdateWorkspaceFiles(files) => [Dispatched(SetWorkspaceFiles(files))]
    case UpdateLists(assistants, models) =>
      [Dispatched(SetAssistants(assistants)), Dispatched(SetModels(NamedById(models))),
       Dispatched(SetIsLoading(false)), Dispatched(SetLoadingModelsAndAssistants(false))]
    case RefreshError(message) =>
      [Sent(Protocol.ShowToast("error", message)), Dispatched(SetLoadingModelsAndAssistants(false))]
    case ErrorMessage(message) =>
      [Dispatched(SetError(Some(message))), Dispatched(SetIsLoading(false)),
       Dispatched(SetOpenAIClientStatus(ClientStatus(Failed, Some(message), None, None)))]
    case UpdateTypingStatus(isTyping) => [Dispatched(SetIsAssistantTyping(isTyping))]
    case ClientConnecting => [Dispatched(SetIsLoading(true)), Dispatched(SetOpenAIClientStatus(StatusOnly(Connecting)))]
    case ClientConnected => [Dispatched(SetOpenAIClientStatus(StatusOnly(Connected))), Dispatched(SetIsLoading(false))]
    case AssistantsRetrieved(count) =>
      [Dispatched(SetOpenAIClientStatus(ClientStatus(RetrievingAssistants, None, Some(count), None)))]
    case ModelsRetrieved(count) =>
      [Dispatched(SetOpenAIClientStatus(ClientStatus(RetrievingModels, None, None, Some(count))))]
    case ClientDone => [Dispatched(SetOpenAIClientStatus(StatusOnly(Done))), Dispatched(SetIsLoading(false))]
    case UpdateMessage(messageId, content, modelName, assistantName, timestamp) =>
      [Dispatched(UpdateMessage(MessagePatch(messageId, content, modelName, assistantName, timestamp)))]
    case ToolCall(_) => []
    case ClientError(_) => []
    case ConversationDeleted(_, _) => []
  }

  // ---------------------------------------------------------------- the provider

  /** The provider: the reducer's state and every effect issued, in order. */
  class GlobalStateProvider {
    var state: GlobalState
    var log: seq<Effect>

    /** Mounting: the initial state, and the request that the extension initialize the
        client. */
    constructor ()
      ensures state == INITIAL && log == [Sent(Protocol.InitClient)]
    {
      state := INITIAL;
      log := [Sent(Protocol.InitClient)];
    }

    /** Issues effects one after another. */
    method Perform(effects: seq<Effect>)
      modifies this
      ensures state == Apply(old(state), effects) && log == old(log) + effects
    {
      var i := 0;
      while i < |effects|
        invariant 0 <= i <= |effects|
        invariant Apply(state, effects[i..]) == Apply(old(state), effects)
        invariant log == old(log) + effects[..i]
      {
        assert effects[i..][1..] == effects[i + 1..];
        state := Step(state, effects[i]);
        log := log + [effects[i]];
        assert effects[..i + 1] == effects[..i] + [effects[i]];
        i := i + 1;
      }
      assert effects[..i] == effects;
    }

    method SelectAccount(accountId: string)
      modifies this
      ensures log == old(log) + SelectAccountEffects(old(state), accountId)
      ensures state == Apply(old(state), SelectAccountEffects(old(state), accountId))
    {
      Perform(SelectAccountEffects(state, accountId));
    }

    method HandleCreateAccount(newId: string)
      modifies this
      ensures log == old(log) + CreateAccountEffects(old(state), newId)
      ensures state == Apply(old(state), CreateAccountEffects(old(state), newId))
    {
      Perform(CreateAccountEffects(state, newId));
    }

    method HandleDeleteAccount(accountId: string)
      modifies this
      ensures log == old(log) + DeleteAccountEffects(accountId)
      ensures state == Apply(old(state), DeleteAccountEffects(accountId))
    {
      Perform(DeleteAccountEffects(accountId));
    }

    method HandleRemoveExtensionData()
      modifies this
      ensures log == old(log) + RemoveExtensionDataEffects()
      ensures state == Apply(old(state), RemoveExtensionDataEffects())
    {
      Perform(RemoveExtensionDataEffects());
    }

    method HandleSendChatMessage(content: string, items: seq<ContextItem>)
      modifies this
      ensures log == old(log) + SendChatMessageEffects(old(state), content, items)
      ensures state == Apply(old(state), SendChatMessageEffects(old(state), content, items))
    {
      Perform(SendChatMessageEffects(state, content, items));
    }

    method HandleDeleteConversation(conversationId: string)
      modifies this
      ensures log == old(log) + DeleteConversationEffects(old(state), conversationId)
      ensures state == Apply(old(state), DeleteConversationEffects(old(state), conversationId))
    {
      Perform(DeleteConversationEffects(state, conversationId));
    }

    method CreateNewConversation(title: string, newId: string, today: string)
      modifies this
      ensures log == old(log) + NewConversationEffects(old(state), title, newId, today)
      ensures state == Apply(old(state), NewConversationEffects(old(state), title, newId, today))
    {
      Perform(NewConversationEffects(state, title, newId, today));
    }

    method SetSelectedAssistant(assistantId: string)
      modifies this
      ensures log == old(log) + SetSelectedAssistantEffects(assistantId)
      ensures state == Apply(old(state), SetSelectedAssistantEffects(assistantId))
    {
      Perform(SetSelectedAssistantEffects(assistantId));
    }

    method SetSelectedModel(modelId: string)
      modifies this
      ensures log == old(log) + SetSelectedModelEffects(modelId)
      ensures state == Apply(old(state), SetSelectedModelEffects(modelId))
    {
      Perform(SetSelectedModelEffects(modelId));
    }

    method RefreshModelsAndAssistants()
      modifies this
      ensures log == old(log) + RefreshEffects()
      ensures state == Apply(old(state), RefreshEffects())
    {
      Perform(RefreshEffects());
    }

    /** A command from the extension. */
    method Receive(m: Protocol.HostMessage)
      modifies this
      ensures log == old(log) + InboundEffects(m)
      ensures state == Apply(old(state), InboundEffects(m))
    {
      Perform(InboundEffects(m));
    }

    /** The effect that recomputes `isClientInitialized` when the models, the selection or the
        loading flag change. */
    method SyncClientInitialized()
      modifies this
      ensures log == old(log) + SyncEffects(old(state))
      ensures state == Apply(old(state), SyncEffects(old(state)))
    {
      Perform(SyncEffects(state));
    }
  }
}
