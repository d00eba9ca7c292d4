/** The webview's global state and its reducer: a total transition function from a state and
    an action to the next state. */
module Reducer {
  import opened Types

  /** The stages the connection of the OpenAI client goes through, as the webview shows them. */
  datatype StatusKind = Idle | Connecting | Connected | RetrievingAssistants | RetrievingModels | Done | Failed

  /** `openAIClientStatus`: the stage and the details the extension reported with it. */
  datatype ClientStatus = ClientStatus(
    status: StatusKind,
    error: Option<string>,
    assistantsCount: Option<int>,
    modelsCount: Option<int>)

  function StatusOnly(k: StatusKind): ClientStatus {
    ClientStatus(k, None, None, None)
  }

  /** The webview's `GlobalState`. None stands for null or undefined. */
  datatype GlobalState = GlobalState(
    accounts: seq<Account>,
    selectedAccountId: Option<string>,
    currentConversation: Option<Conversation>,
    isFullScreen: bool,
    error: Option<string>,
    isLoading: bool,
    isAssistantTyping: bool,
    openAIClientStatus: ClientStatus,
    assistants: seq<AssistantInfo>,
    models: seq<ModelInfo>,
    selectedAssistant: string,
    selectedModel: string,
    loadingModelsAndAssistants: bool,
    workspaceFiles: seq<string>,
    newAccountName: string,
    newAccountApiKey: string,
    isClientInitialized: bool,
    selectedAccount: Option<Account>)

  /** `initialState`. */
  const INITIAL: GlobalState := GlobalState(
    [], None, None, false, None, false, false, StatusOnly(Idle), [], [], "", "", false, [], "", "", false, None)

  /** The payload of UPDATE_MESSAGE. */
  datatype MessagePatch = MessagePatch(
    messageId: string,
    content: string,
    modelName: Option<string>,
    assistantName: Option<string>,
    timestamp: Option<string>)

  /** The reducer's actions. The selection of UPDATE_ACCOUNTS has three values: None is an
      absent (undefined) field, Some(None) is null and Some(Some(id)) an id. `Unrecognised`
      stands for an action of any other type. */
  datatype Action =
    | UpdateAccounts(accounts: seq<Account>, selection: Option<Option<string>>)
    | SetSelectedAccountId(accountId: Option<string>)
    | SetCurrentConversation(conversation: Option<Conversation>)
    | UpdateConversation(updated: Conversation)
    | SetError(error: Option<string>)
    | SetIsLoading(loading: bool)
    | ToggleFullScreen
    | SetIsAssistantTyping(typing: bool)
    | SetOpenAIClientStatus(clientStatus: ClientStatus)
    | SetAssistants(assistantList: seq<AssistantInfo>)
    | SetModels(modelList: seq<ModelInfo>)
    | SetSelectedAssistant(assistantId: string)
    | SetSelectedModel(modelId: string)
    | SetLoadingModelsAndAssistants(loadingLists: bool)
    | SetWorkspaceFiles(files: seq<string>)
    | SetNewAccountName(name: string)
    | SetNewAccountApiKey(apiKey: string)
    | SetIsClientInitialized(initialized: bool)
    | UpdateMessage(patch: MessagePatch)
    | DismissError
    | DismissOpenAIClientStatus
    | Unrecognised(actionType: string)

  // ---------------------------------------------------------------- helpers

  /** `conversations.map(conv => conv.id === c.id ? c : conv)`. */
  function ReplaceConversation(cs: seq<Conversation>, c: Conversation): (r: seq<Conversation>)
    ensures |r| == |cs|
    ensures forall k :: 0 <= k < |cs| ==> r[k] == if cs[k].id == c.id then c else cs[k]
  {
    if cs == [] then [] else [if cs[0].id == c.id then c else cs[0]] + ReplaceConversation(cs[1..], c)
  }

  /** `accounts.map(...)`: only accounts whose id is the selection get their conversations
      replaced. */
  function ReplaceInSelected(accounts: seq<Account>, selected: Option<string>, c: Conversation): (r: seq<Account>)
    ensures |r| == |accounts|
    ensures forall j :: 0 <= j < |accounts| ==>
      r[j] == if selected == Some(accounts[j].id) then accounts[j].(conversations := ReplaceConversation(accounts[j].conversations, c))
              else accounts[j]
  {
    if accounts == [] then []
    else
      [if selected == Some(accounts[0].id) then accounts[0].(conversations := ReplaceConversation(accounts[0].conversations, c))
       else accounts[0]]
      + ReplaceInSelected(accounts[1..], selected, c)
  }

  predicate HasMessage(ms: seq<Message>, id: string) {
    exists k :: 0 <= k < |ms| && ms[k].id == id
  }

  /** The patch applied to a message with its id. */
  function Patched(m: Message, p: MessagePatch): Message {
    m.(content := p.content, modelName := p.modelName, assistantName := p.assistantName, timestamp := p.timestamp)
  }

  /** The message UPDATE_MESSAGE appends when none has the id: only the patched fields. */
  function FromPatch(p: MessagePatch): Message {
    Message(p.messageId, p.content, None, p.timestamp, p.modelName, p.assistantName, None)
  }

  /** `messages.map(msg => msg.id === id ? {...msg, ...patch} : msg)`. */
  function PatchAll(ms: seq<Message>, p: MessagePatch): (r: seq<Message>)
    ensures |r| == |ms|
    ensures forall k :: 0 <= k < |ms| ==> r[k] == if ms[k].id == p.messageId then Patched(ms[k], p) else ms[k]
  {
    if ms == [] then [] else [if ms[0].id == p.messageId then Patched(ms[0], p) else ms[0]] + PatchAll(ms[1..], p)
  }

  /** The messages after UPDATE_MESSAGE: patched in place when one has the id, else the new
      message appended. */
  function UpdatedMessages(ms: seq<Message>, p: MessagePatch): seq<Message> {
    if HasMessage(ms, p.messageId) then PatchAll(ms, p) else ms + [FromPatch(p)]
  }

  function FirstAssistantId(list: seq<AssistantInfo>): string {
    if |list| > 0 then list[0].id else ""
  }

  function FirstModelId(list: seq<ModelInfo>): string {
    if |list| > 0 then list[0].id else ""
  }

  // ---------------------------------------------------------------- the reducer

  /** `reducer(state, action)`. */
  function Reduce(s: GlobalState, a: Action): GlobalState {
    match a
    case UpdateAccounts(accounts, selection) =>
      s.(accounts := accounts,
         selectedAccountId := if selection.Some? then selection.value else s.selectedAccountId,
         isLoading := false)
    case SetSelectedAccountId(id) => s.(selectedAccountId := id)
    case SetIsLoading(b) => s.(isLoading := b)
    case SetError(e) => s.(error := e)
    case DismissError => s.(error := None)
    case SetNewAccountName(n) => s.(newAccountName := n)
    case SetNewAccountApiKey(k) => s.(newAccountApiKey := k)
    case SetCurrentConversation(c) => s.(currentConversation := c)
    case UpdateConversation(c) =>
      s.(accounts := ReplaceInSelected(s.accounts, s.selectedAccountId, c), currentConversation := Some(c))
    case SetIsAssistantTyping(b) => s.(isAssistantTyping := b, isLoading := b)
    case SetOpenAIClientStatus(st) => s.(openAIClientStatus := st)
    case DismissOpenAIClientStatus => s.(openAIClientStatus := StatusOnly(Idle))
    case SetAssistants(list) => s.(assistants := list, selectedAssistant := FirstAssistantId(list))
    case SetModels(list) => s.(models := list, selectedModel := FirstModelId(list))
    case SetSelectedAssistant(id) => s.(selectedAssistant := id)
    case SetSelectedModel(id) => s.(selectedModel := id)
    case SetLoadingModelsAndAssistants(b) => s.(loadingModelsAndAssistants := b)
    case SetWorkspaceFiles(files) => s.(workspaceFiles := files)
    case ToggleFullScreen => s.(isFullScreen := !s.isFullScreen)
    case SetIsClientInitialized(b) => s.(isClientInitialized := b)
    case UpdateMessage(p) =>
      (match s.currentConversation
       case None => s
       case Some(c) => s.(currentConversation := Some(c.(messages := UpdatedMessages(c.messages, p)))))
    case Unrecognised(_) => s
  }

  /** A sequence of actions dispatched one after another. */
  function ReduceAll(s: GlobalState, actions: seq<Action>): GlobalState
    decreases |actions|
  {
    if actions == [] then s else Reduce(ReduceAll(s, actions[..|actions| - 1]), actions[|actions| - 1])
  }

  // ---------------------------------------------------------------- properties

  /** UPDATE_ACCOUNTS replaces the accounts and ends loading; an absent selection keeps the
      old one, a null selection clears it and an id sets it. Nothing else changes. */
  lemma UpdateAccountsSpec(s: GlobalState, accounts: seq<Account>, selection: Option<Option<string>>)
    ensures var r := Reduce(s, UpdateAccounts(accounts, selection));
      && r.accounts == accounts && !r.isLoading
      && (selection == None ==> r.selectedAccountId == s.selectedAccountId)
      && (selection == Some(None) ==> r.selectedAccountId == None)
      && (forall id :: selection == Some(Some(id)) ==> r.selectedAccountId == Some(id))
      && r.(accounts := s.accounts, selectedAccountId := s.selectedAccountId, isLoading := s.isLoading) == s
  {
  }

  /** UPDATE_CONVERSATION makes the conversation current and replaces the entries with its
      id in the selected account alone. It never inserts: each account keeps its number of
      conversations and holds the id exactly when it held it before; every other
      conversation and every other account is unchanged. */
  lemma UpdateConversationSpec(s: GlobalState, c: Conversation)
    ensures var r := Reduce(s, UpdateConversation(c));
      && r.currentConversation == Some(c)
      && |r.accounts| == |s.accounts|
      && (forall j :: 0 <= j < |s.accounts| && s.selectedAccountId != Some(s.accounts[j].id) ==> r.accounts[j] == s.accounts[j])
      && (forall j :: 0 <= j < |s.accounts| ==>
            && r.accounts[j].(conversations := s.accounts[j].conversations) == s.accounts[j]
            && |r.accounts[j].conversations| == |s.accounts[j].conversations|
            && ConversationIds(r.accounts[j].conversations) == ConversationIds(s.accounts[j].conversations))
      && (forall j, k :: 0 <= j < |s.accounts| && 0 <= k < |s.accounts[j].conversations| ==>
            r.accounts[j].conversations[k] ==
              if s.selectedAccountId == Some(s.accounts[j].id) && s.accounts[j].conversations[k].id == c.id then c
              else s.accounts[j].conversations[k])
      && r.(accounts := s.accounts, currentConversation := s.currentConversation) == s
  {
    var r := Reduce(s, UpdateConversation(c));
    forall j | 0 <= j < |s.accounts|
      ensures ConversationIds(r.accounts[j].conversations) == ConversationIds(s.accounts[j].conversations)
    {
      var a := ConversationIds(r.accounts[j].conversations);
      var b := ConversationIds(s.accounts[j].conversations);
      assert |a| == |b|;
      assert forall k :: 0 <= k < |a| ==> a[k] == b[k];
    }
  }

  /** UPDATE_MESSAGE for an id a message of the current conversation has: every message with
      the id gets the patch's content, model and assistant names and timestamp and keeps its
      id, sender and attachments; every other message and the number of messages stay. */
  lemma UpdateMessageReplaces(s: GlobalState, p: MessagePatch)
    requires s.currentConversation.Some? && HasMessage(s.currentConversation.value.messages, p.messageId)
    ensures var r := Reduce(s, UpdateMessage(p));
      var ms := s.currentConversation.value.messages;
      && r.currentConversation.Some?
      && r.currentConversation.value.(messages := ms) == s.currentConversation.value
      && |r.currentConversation.value.messages| == |ms|
      && (forall k :: 0 <= k < |ms| ==>
            var m := r.currentConversation.value.messages[k];
            if ms[k].id == p.messageId then
              && m.id == ms[k].id && m.sender == ms[k].sender && m.attachments == ms[k].attachments
              && m.content == p.content && m.modelName == p.modelName
              && m.assistantName == p.assistantName && m.timestamp == p.timestamp
            else m == ms[k])
      && r.(currentConversation := s.currentConversation) == s
  {
  }

  /** UPDATE_MESSAGE for an id no message has appends the patch as a message at the end. */
  lemma UpdateMessageAppends(s: GlobalState, p: MessagePatch)
    requires s.currentConversation.Some? && !HasMessage(s.currentConversation.value.messages, p.messageId)
    ensures var r := Reduce(s, UpdateMessage(p));
      && r.currentConversation == Some(s.currentConversation.value.(messages := s.currentConversation.value.messages + [FromPatch(p)]))
      && r.(currentConversation := s.currentConversation) == s
  {
  }

  /** Without a current conversation UPDATE_MESSAGE returns the state unchanged. */
  lemma UpdateMessageWithoutConversation(s: GlobalState, p: MessagePatch)
    requires s.currentConversation.None?
    ensures Reduce(s, UpdateMessage(p)) == s
  {
  }

  /** SET_ASSISTANTS and SET_MODELS select the first entry's id, or "" for an empty list. */
  lemma SetListsSelectFirst(s: GlobalState, assistants: seq<AssistantInfo>, models: seq<ModelInfo>)
    ensures var r := Reduce(s, SetAssistants(assistants));
      && r.assistants == assistants
      && (assistants == [] ==> r.selectedAssistant == "")
      && (assistants != [] ==> r.selectedAssistant == assistants[0].id)
      && r.(assistants := s.assistants, selectedAssistant := s.selectedAssistant) == s
    ensures var r := Reduce(s, SetModels(models));
      && r.models == models
      && (models == [] ==> r.selectedModel == "")
      && (models != [] ==> r.selectedModel == models[0].id)
      && r.(models := s.models, selectedModel := s.selectedModel) == s
  {
  }

  /** SET_IS_ASSISTANT_TYPING sets the typing flag and the loading flag alike. */
  lemma SetTypingSetsLoading(s: GlobalState, b: bool)
    ensures var r := Reduce(s, SetIsAssistantTyping(b));
      r.isAssistantTyping == b && r.isLoading == b
      && r.(isAssistantTyping := s.isAssistantTyping, isLoading := s.isLoading) == s
  {
  }

  /** TOGGLE_FULL_SCREEN flips the flag, and flipping twice is the identity. */
  lemma ToggleIsInvolution(s: GlobalState)
    ensures Reduce(s, ToggleFullScreen).isFullScreen == !s.isFullScreen
    ensures Reduce(Reduce(s, ToggleFullScreen), ToggleFullScreen) == s
  {
  }

  /** DISMISS_ERROR clears the error; DISMISS_OPEN_AI_CLIENT_STATUS puts the status back to
      idle with no details, which is the status of the initial state. */
  lemma DismissSpec(s: GlobalState)
    ensures Reduce(s, DismissError) == s.(error := None)
    ensures Reduce(s, DismissOpenAIClientStatus).openAIClientStatus == INITIAL.openAIClientStatus
    ensures Reduce(s, DismissOpenAIClientStatus).(openAIClientStatus := s.openAIClientStatus) == s
    ensures Reduce(Reduce(s, SetError(Some("e"))), DismissError).error == None
  {
  }

  /** The plain setters each change their one field, and an action of any other type
      changes nothing. */
  lemma SettersChangeOneField(s: GlobalState, a: Action)
    ensures a.SetSelectedAccountId? ==> Reduce(s, a) == s.(selectedAccountId := a.accountId)
    ensures a.SetCurrentConversation? ==> Reduce(s, a) == s.(currentConversation := a.conversation)
    ensures a.SetError? ==> Reduce(s, a) == s.(error := a.error)
    ensures a.SetIsLoading? ==> Reduce(s, a) == s.(isLoading := a.loading)
    ensures a.SetOpenAIClientStatus? ==> Reduce(s, a) == s.(openAIClientStatus := a.clientStatus)
    ensures a.SetSelectedAssistant? ==> Reduce(s, a) == s.(selectedAssistant := a.assistantId)
    ensures a.SetSelectedModel? ==> Reduce(s, a) == s.(selectedModel := a.modelId)
    ensures a.SetLoadingModelsAndAssistants? ==> Reduce(s, a) == s.(loadingModelsAndAssistants := a.loadingLists)
    ensures a.SetWorkspaceFiles? ==> Reduce(s, a) == s.(workspaceFiles := a.files)
    ensures a.SetNewAccountName? ==> Reduce(s, a) == s.(newAccountName := a.name)
    ensures a.SetNewAccountApiKey? ==> Reduce(s, a) == s.(newAccountApiKey := a.apiKey)
    ensures a.SetIsClientInitialized? ==> Reduce(s, a) == s.(isClientInitialized := a.initialized)
    ensures a.Unrecognised? ==> Reduce(s, a) == s
  {
  }

  /** No action touches `selectedAccount`, which only the provider derives. */
  lemma SelectedAccountUntouched(s: GlobalState, a: Action)
    ensures Reduce(s, a).selectedAccount == s.selectedAccount
  {
    if a.UpdateAccounts? || a.SetSelectedAccountId? || a.SetCurrentConversation? || a.UpdateConversation?
       || a.SetError? || a.SetIsLoading? || a.ToggleFullScreen? || a.SetIsAssistantTyping?
       || a.SetOpenAIClientStatus? || a.SetAssistants? || a.SetModels? {
      FirstActionsKeepSelectedAccount(s, a);
    } else if !a.UpdateMessage? {
      assert a.SetSelectedAssistant? || a.SetSelectedModel? || a.SetLoadingModelsAndAssistants?
             || a.SetWorkspaceFiles? || a.SetNewAccountName? || a.SetNewAccountApiKey?
             || a.SetIsClientInitialized? || a.DismissError? || a.DismissOpenAIClientStatus? || a.Unrecognised?;
      OtherActionsKeepSelectedAccount(s, a);
    }
  }

  lemma FirstActionsKeepSelectedAccount(s: GlobalState, a: Action)
    requires a.UpdateAccounts? || a.SetSelectedAccountId? || a.SetCurrentConversation? || a.UpdateConversation?
             || a.SetError? || a.SetIsLoading? || a.ToggleFullScreen? || a.SetIsAssistantTyping?
             || a.SetOpenAIClientStatus? || a.SetAssistants? || a.SetModels?
    ensures Reduce(s, a).selectedAccount == s.selectedAccount
  {
  }

  lemma OtherActionsKeepSelectedAccount(s: GlobalState, a: Action)
    requires a.SetSelectedAssistant? || a.SetSelectedModel? || a.SetLoadingModelsAndAssistants?
             || a.SetWorkspaceFiles? || a.SetNewAccountName? || a.SetNewAccountApiKey?
             || a.SetIsClientInitialized? || a.DismissError? || a.DismissOpenAIClientStatus? || a.Unrecognised?
    ensures Reduce(s, a).selectedAccount == s.selectedAccount
  {
  }


  lemma PatchAllIdempotent(ms: seq<Message>, p: MessagePatch)
    ensures PatchAll(PatchAll(ms, p), p) == PatchAll(ms, p)
  {
    var once := PatchAll(ms, p);
    var twice := PatchAll(once, p);
    assert |twice| == |once|;
    assert forall k :: 0 <= k < |once| ==> twice[k] == once[k];
  }

  /** Patching keeps the message ids, so a patched list still has the id. */
  lemma UpdatedMessagesHasId(ms: seq<Message>, p: MessagePatch)
    ensures HasMessage(UpdatedMessages(ms, p), p.messageId)
  {
    var r := UpdatedMessages(ms, p);
    if HasMessage(ms, p.messageId) {
      var k :| 0 <= k < |ms| && ms[k].id == p.messageId;
      assert r[k].id == p.messageId;
    } else {
      assert r[|ms|].id == p.messageId;
    }
  }

  /** Applying an update message twice is applying it once: the second finds the id the first
      wrote and rewrites the same fields. */
  lemma UpdatedMessagesIdempotent(ms: seq<Message>, p: MessagePatch)
    ensures UpdatedMessages(UpdatedMessages(ms, p), p) == UpdatedMessages(ms, p)
  {
    var once := UpdatedMessages(ms, p);
    UpdatedMessagesHasId(ms, p);
    if HasMessage(ms, p.messageId) {
      PatchAllIdempotent(ms, p);
    } else {
      var twice := PatchAll(once, p);
      assert |twice| == |once|;
      assert forall k :: 0 <= k < |once| ==> twice[k] == once[k];
    }
  }

  lemma ReplaceInSelectedIdempotent(accounts: seq<Account>, selected: Option<string>, c: Conversation)
    ensures ReplaceInSelected(ReplaceInSelected(accounts, selected, c), selected, c) == ReplaceInSelected(accounts, selected, c)
  {
    var once := ReplaceInSelected(accounts, selected, c);
    var twice := ReplaceInSelected(once, selected, c);
    forall j | 0 <= j < |once|
      ensures twice[j] == once[j]
    {
      if selected == Some(accounts[j].id) {
        var cs := once[j].conversations;
        assert ReplaceConversation(cs, c) == cs;
      }
    }
  }

  /** Every action but TOGGLE_FULL_SCREEN is idempotent: dispatching it twice in a row is
      dispatching it once. */
  lemma ReduceIdempotent(s: GlobalState, a: Action)
    requires !a.ToggleFullScreen?
    ensures Reduce(Reduce(s, a), a) == Reduce(s, a)
  {
    match a {
      case UpdateConversation(c) =>
        ReplaceInSelectedIdempotent(s.accounts, s.selectedAccountId, c);
      case UpdateMessage(p) =>
        if s.currentConversation.Some? {
          UpdatedMessagesIdempotent(s.currentConversation.value.messages, p);
        }
      case _ =>
        if a.UpdateAccounts? || a.SetSelectedAccountId? || a.SetCurrentConversation? || a.SetError?
           || a.SetIsLoading? || a.SetIsAssistantTyping? || a.SetOpenAIClientStatus? || a.SetAssistants? {
          FirstSettersIdempotent(s, a);
        } else {
          OtherSettersIdempotent(s, a);
        }
    }
  }

  lemma FirstSettersIdempotent(s: GlobalState, a: Action)
    requires a.UpdateAccounts? || a.SetSelectedAccountId? || a.SetCurrentConversation? || a.SetError?
             || a.SetIsLoading? || a.SetIsAssistantTyping? || a.SetOpenAIClientStatus? || a.SetAssistants?
    ensures Reduce(Reduce(s, a), a) == Reduce(s, a)
  {
  }

  lemma OtherSettersIdempotent(s: GlobalState, a: Action)
    requires !a.ToggleFullScreen? && !a.UpdateConversation? && !a.UpdateMessage?
    requires !(a.UpdateAccounts? || a.SetSelectedAccountId? || a.SetCurrentConversation? || a.SetError?
               || a.SetIsLoading? || a.SetIsAssistantTyping? || a.SetOpenAIClientStatus? || a.SetAssistants?)
    ensures Reduce(Reduce(s, a), a) == Reduce(s, a)
  {
  }
}
