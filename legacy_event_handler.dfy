/** The first version of the extension host's message handler (`src/EventHandler.ts`): the
    conversation bookkeeping of a chat turn, the index-based update and the deletion of a
    stored conversation, and the account operations it forwards to the older manager.

    `getAccounts` hands back the list the global state holds, not a copy, so an edit of that
    list is seen by the next read; the older handler relies on this when it edits an entry in
    place and then calls `storeAccount`, which reads the list again and appends to it. The
    service calls of a turn (thread, run, polling, message listing) are one outcome value. */
module LegacyEventHandler {
  import opened Types
  import opened Text
  import opened AccountStore
  import opened ConversationMerge
  import opened LegacyAccounts

  /** A message the older handler posts to the webview. */
  datatype Post =
    | ErrorPost(message: string)
    | TypingStatusPost(isTyping: bool)
    | ConversationPost(conversation: Conversation)
    | ConversationDeletedPost(accountId: string, conversationId: string)
    | AccountsPost(accounts: seq<LegacyEntry>)
    | ListsPost(assistants: seq<AssistantInfo>, models: seq<ModelInfo>)

  const NOT_INITIALIZED := "OpenAI client not initialized"
  const CHAT_FAILED := "Failed to process chat message"
  const NO_API_KEY := "API key not found for the selected account."
  const CLIENT_FAILED := "Failed to initialize OpenAI client. Check the API key and try again."

  /** A message of the thread a turn creates: the role is the message's sender. */
  datatype ThreadMessage = ThreadMessage(role: Option<Sender>, content: string)

  /** What a turn asks the service for: a thread seeded with the messages, and a run of it. */
  datatype ThreadRun = ThreadRun(messages: seq<ThreadMessage>, assistant: string, model: string)

  /** What the service calls of a turn came to: a failure somewhere along the way, or the
      newest message of the thread, with its id and its first text. */
  datatype RunOutcome = RunFailed | Replied(messageId: string, text: string)

  /** What the client set-up got back: a failure, or the assistants and all models. */
  datatype ListsOutcome = ListsFailed | Listed(assistants: seq<AssistantInfo>, models: seq<ModelInfo>)

  /** The payload of "sendChatMessage". */
  datatype ChatRequest = ChatRequest(accountId: string, conversationId: string, message: string, assistant: string, model: string)

  /** The values a turn takes from the clock and the id generator. */
  datatype TurnInputs = TurnInputs(userMessageId: string, today: string, userTimestamp: string, replyTimestamp: string)

  /** What writing a conversation change back came to. `Skipped`: no write was attempted;
      `NoAccount`: no entry has the id, and nothing is stored; `NoConversationList`: the entry
      has no conversation list, so reading it throws and nothing is stored; `Stored`: the list
      now in the global state. */
  datatype WriteBack = Skipped | NoAccount | NoConversationList | Stored(entries: seq<LegacyEntry>)

  // ---------------------------------------------------------------- lookups and updates

  /** `getConversation`: the entry's conversation with the id, or a new one named after the
      id with no messages. An entry without a conversation list has none. */
  function LegacyLookup(entries: seq<LegacyEntry>, accountId: string, conversationId: string, today: string): Conversation {
    var i := FindEntryIndex(entries, accountId);
    if i >= 0 && entries[i].conversations.Some? then
      match FindConversation(entries[i].conversations.value, conversationId)
      case Some(c) => c
      case None => DefaultConversation(conversationId, today)
    else DefaultConversation(conversationId, today)
  }

  /** The entry's conversations edited in place, then `storeAccount` on the entry: its id and
      name are appended, and the secret is written from the entry's missing key. */
  function EditAndStore(entries: seq<LegacyEntry>, i: int, conversations: seq<Conversation>): seq<LegacyEntry>
    requires 0 <= i < |entries|
  {
    entries[i := entries[i].(conversations := Some(conversations))] + [InfoOf(entries[i].id, entries[i].name)]
  }

  /** `updateConversation`: the first conversation with the id of `c` is replaced by `c`, or
      `c` is appended. */
  function UpdateOutcome(entries: seq<LegacyEntry>, accountId: string, c: Conversation): WriteBack {
    var i := FindEntryIndex(entries, accountId);
    if i == -1 then NoAccount
    else if entries[i].conversations.None? then NoConversationList
    else Stored(EditAndStore(entries, i, SetById(entries[i].conversations.value, c)))
  }

  /** `deleteConversation`: every conversation with the id is dropped. */
  function DeleteOutcome(entries: seq<LegacyEntry>, accountId: string, conversationId: string): WriteBack {
    var i := FindEntryIndex(entries, accountId);
    if i == -1 then NoAccount
    else if entries[i].conversations.None? then NoConversationList
    else Stored(EditAndStore(entries, i, WithoutConversation(entries[i].conversations.value, conversationId)))
  }

  /** `conversation.messages.map(msg => ({ role: msg.sender, content: msg.content }))`. */
  function ThreadMessages(ms: seq<Message>): seq<ThreadMessage> {
    if ms == [] then [] else [ThreadMessage(ms[0].sender, ms[0].content)] + ThreadMessages(ms[1..])
  }

  /** The models whose id starts with "gpt-". */
  function GptModels(models: seq<ModelInfo>): seq<ModelInfo> {
    if models == [] then []
    else (if StartsWith(models[0].id, "gpt-") then [models[0]] else []) + GptModels(models[1..])
  }

  // ---------------------------------------------------------------- a chat turn

  /** The conversation with the user's message appended and named as the last message. */
  function UserConversation(entries: seq<LegacyEntry>, req: ChatRequest, env: TurnInputs): Conversation {
    var c := LegacyLookup(entries, req.accountId, req.conversationId, env.today);
    var userMessage := Message(env.userMessageId, req.message, Some(FromUser), Some(env.userTimestamp), None, None, None);
    c.(messages := c.messages + [userMessage], lastMessage := req.message)
  }

  /** The conversation with the assistant's reply appended and named as the last message. */
  function ReplyConversation(c: Conversation, messageId: string, text: string, env: TurnInputs): Conversation {
    var assistantMessage := Message(messageId, text, Some(FromAssistant), Some(env.replyTimestamp), None, None, None);
    c.(messages := c.messages + [assistantMessage], lastMessage := text)
  }

  /** `getConversation` hands back a stored conversation: the account's entry has a
      conversation list holding the id. The object handed back is the one in the list the
      global state holds, so the turn's edits of it edit that list. */
  predicate Held(entries: seq<LegacyEntry>, accountId: string, conversationId: string) {
    var i := FindEntryIndex(entries, accountId);
    i >= 0 && entries[i].conversations.Some? && FindConversationIndex(entries[i].conversations.value, conversationId) >= 0
  }

  /** The held list after `conversation.messages = …` and `conversation.lastMessage = …`
      edit the stored conversation: it is the user's conversation where it stood. */
  function HeldEdit(entries: seq<LegacyEntry>, req: ChatRequest, env: TurnInputs): seq<LegacyEntry>
    requires Held(entries, req.accountId, req.conversationId)
  {
    var i := FindEntryIndex(entries, req.accountId);
    var cs := entries[i].conversations.value;
    var k := FindConversationIndex(cs, req.conversationId);
    entries[i := entries[i].(conversations := Some(cs[k := UserConversation(entries, req, env)]))]
  }

  /** Replacing an entry by one with the same id does not move the lookup. */
  lemma FindEntryIndexOfSet(entries: seq<LegacyEntry>, i: int, e: LegacyEntry, id: string)
    requires 0 <= i < |entries| && FindEntryIndex(entries, id) == i && e.id == id
    ensures FindEntryIndex(entries[i := e], id) == i
  {
    var r := entries[i := e];
    assert forall j :: 0 <= j < i ==> r[j] == entries[j];
    assert r[i].id == id;
  }

  /** Replacing a conversation by one with the same id does not move the lookup. */
  lemma FindConversationIndexOfSet(cs: seq<Conversation>, k: int, c: Conversation)
    requires 0 <= k < |cs| && FindConversationIndex(cs, c.id) == k
    ensures FindConversationIndex(cs[k := c], c.id) == k
  {
    var r := cs[k := c];
    assert forall j :: 0 <= j < k ==> r[j] == cs[j];
    assert r[k].id == c.id;
  }

  /** A write-back of a conversation with the held id overwrites the turn's in-place edit:
      it stores what it would have stored from the list before the edit. */
  lemma HeldEditOverwritten(entries: seq<LegacyEntry>, req: ChatRequest, env: TurnInputs, c: Conversation)
    requires Held(entries, req.accountId, req.conversationId) && c.id == req.conversationId
    ensures UpdateOutcome(HeldEdit(entries, req, env), req.accountId, c) == UpdateOutcome(entries, req.accountId, c)
  {
    var i := FindEntryIndex(entries, req.accountId);
    var cs := entries[i].conversations.value;
    var k := FindConversationIndex(cs, req.conversationId);
    var u := UserConversation(entries, req, env);
    LookupId(entries, req.accountId, req.conversationId, env.today);
    var held := HeldEdit(entries, req, env);
    FindEntryIndexOfSet(entries, i, held[i], req.accountId);
    FindConversationIndexOfSet(cs, k, u);
    assert SetById(cs[k := u], c) == cs[k := c];
    assert held[i := held[i].(conversations := Some(cs[k := c]))] == entries[i := entries[i].(conversations := Some(cs[k := c]))];
  }

  /** The conversation `getConversation` hands back has the requested id. */
  lemma LookupId(entries: seq<LegacyEntry>, accountId: string, conversationId: string, today: string)
    ensures LegacyLookup(entries, accountId, conversationId, today).id == conversationId
  {
  }

  /** What a turn writes back, for a handler with a client. */
  function ChatWrite(entries: seq<LegacyEntry>, req: ChatRequest, env: TurnInputs, outcome: RunOutcome): WriteBack {
    match outcome
    case RunFailed => Skipped
    case Replied(id, text) => UpdateOutcome(entries, req.accountId, ReplyConversation(UserConversation(entries, req, env), id, text, env))
  }

  /** What a turn posts, for a handler with a client: typing on and the conversation with the
      user's message; then typing off and the conversation with the reply, or, when the
      service calls or the write-back throw, the error and typing off. */
  function ChatPosts(entries: seq<LegacyEntry>, req: ChatRequest, env: TurnInputs, outcome: RunOutcome): seq<Post> {
    [TypingStatusPost(true), ConversationPost(UserConversation(entries, req, env))] + ChatTail(entries, req, env, outcome)
  }

  /** What a turn posts after the service calls. */
  function ChatTail(entries: seq<LegacyEntry>, req: ChatRequest, env: TurnInputs, outcome: RunOutcome): seq<Post> {
    var failure := [ErrorPost(CHAT_FAILED), TypingStatusPost(false)];
    match outcome
    case RunFailed => failure
    case Replied(id, text) =>
      if ChatWrite(entries, req, env, outcome).NoConversationList? then failure
      else [TypingStatusPost(false), ConversationPost(ReplyConversation(UserConversation(entries, req, env), id, text, env))]
  }

  /** `VSCodeEventHandler`, with the webview registered. `hasClient`: an OpenAI client has
      been created. */
  class LegacyHandler {
    const manager: LegacyAccountManager
    var hasClient: bool
    var posts: seq<Post>
    var runs: seq<ThreadRun>

    constructor (manager: LegacyAccountManager)
      ensures this.manager == manager && !hasClient && posts == [] && runs == []
    {
      this.manager := manager;
      hasClient := false;
      posts := [];
      runs := [];
    }

    /** `initializeOpenAIClient`: without a key, an error; otherwise the client is created,
        and the lists are posted with only the "gpt-" models, or the failure is reported. */
    method InitializeClient(accountId: string, outcome: ListsOutcome)
      modifies this
      ensures runs == old(runs)
      ensures !Truthy(manager.GetApiKey(accountId)) ==> hasClient == old(hasClient) && posts == old(posts) + [ErrorPost(NO_API_KEY)]
      ensures Truthy(manager.GetApiKey(accountId)) ==> hasClient && posts == old(posts) + [
        match outcome
        case ListsFailed => ErrorPost(CLIENT_FAILED)
        case Listed(assistants, models) => ListsPost(assistants, GptModels(models))]
    {
      var apiKey := manager.GetApiKey(accountId);
      if !Truthy(apiKey) {
        posts := posts + [ErrorPost(NO_API_KEY)];
        return;
      }
      hasClient := true;
      match outcome
      case ListsFailed =>
        posts := posts + [ErrorPost(CLIENT_FAILED)];
      case Listed(assistants, models) =>
        posts := posts + [ListsPost(assistants, GptModels(models))];
    }

    /** `updateConversation`, awaited: `ok` is false when it throws. */
    method UpdateConversation(accountId: string, conversation: Conversation) returns (ok: bool)
      modifies manager
      ensures var w := UpdateOutcome(old(manager.GetAccounts()), accountId, conversation);
        && ok == !w.NoConversationList?
        && (w.Stored? ==> manager.globalState == old(manager.globalState)[ACCOUNTS_KEY := w.entries]
                          && manager.secrets == old(manager.secrets)[SecretKey(accountId) := None])
        && (!w.Stored? ==> manager.globalState == old(manager.globalState) && manager.secrets == old(manager.secrets))
    {
      var accounts := manager.GetAccounts();
      var accountIndex := FindEntryIndex(accounts, accountId);
      if accountIndex == -1 {
        return true;
      }
      if accounts[accountIndex].conversations.None? {
        return false;
      }
      var edited := SetById(accounts[accountIndex].conversations.value, conversation);
      accounts := accounts[accountIndex := accounts[accountIndex].(conversations := Some(edited))];
      manager.globalState := manager.globalState[ACCOUNTS_KEY := accounts];
      manager.StoreAccount(accounts[accountIndex].id, accounts[accountIndex].name, None);
      ok := true;
    }

    /** `deleteConversation`, started without being awaited: when the entry has no
        conversation list the rejection goes unhandled, and nothing is posted. */
    method DeleteConversation(accountId: string, conversationId: string)
      modifies this, manager
      ensures runs == old(runs) && hasClient == old(hasClient)
      ensures var w := DeleteOutcome(old(manager.GetAccounts()), accountId, conversationId);
        && (w.Stored? ==> manager.globalState == old(manager.globalState)[ACCOUNTS_KEY := w.entries]
                          && manager.secrets == old(manager.secrets)[SecretKey(accountId) := None]
                          && posts == old(posts) + [ConversationDeletedPost(accountId, conversationId)])
        && (!w.Stored? ==> manager.globalState == old(manager.globalState) && manager.secrets == old(manager.secrets)
                           && posts == old(posts))
    {
      var accounts := manager.GetAccounts();
      var accountIndex := FindEntryIndex(accounts, accountId);
      if accountIndex == -1 || accounts[accountIndex].conversations.None? {
        return;
      }
      var kept := WithoutConversation(accounts[accountIndex].conversations.value, conversationId);
      accounts := accounts[accountIndex := accounts[accountIndex].(conversations := Some(kept))];
      manager.globalState := manager.globalState[ACCOUNTS_KEY := accounts];
      manager.StoreAccount(accounts[accountIndex].id, accounts[accountIndex].name, None);
      posts := posts + [ConversationDeletedPost(accountId, conversationId)];
    }

    /** `conversation.messages = …` and `conversation.lastMessage = …` on the conversation
        `getConversation` handed back: when it is a stored one, the held list changes with it. */
    method EditHeldConversation(entries: seq<LegacyEntry>, req: ChatRequest, env: TurnInputs, conversation: Conversation)
      requires entries == manager.GetAccounts() && conversation == UserConversation(entries, req, env)
      modifies manager
      ensures manager.secrets == old(manager.secrets)
      ensures Held(entries, req.accountId, req.conversationId) ==>
        manager.globalState == old(manager.globalState)[ACCOUNTS_KEY := HeldEdit(entries, req, env)]
      ensures !Held(entries, req.accountId, req.conversationId) ==> manager.globalState == old(manager.globalState)
    {
      var accountIndex := FindEntryIndex(entries, req.accountId);
      if accountIndex >= 0 && entries[accountIndex].conversations.Some? {
        var cs := entries[accountIndex].conversations.value;
        var k := FindConversationIndex(cs, req.conversationId);
        if k >= 0 {
          var held := entries[accountIndex := entries[accountIndex].(conversations := Some(cs[k := conversation]))];
          manager.globalState := manager.globalState[ACCOUNTS_KEY := held];
        }
      }
    }

    /** `handleChatMessage`. */
    method HandleChatMessage(req: ChatRequest, env: TurnInputs, outcome: RunOutcome)
      modifies this, manager
      ensures hasClient == old(hasClient)
      ensures !old(hasClient) ==>
        && posts == old(posts) + [ErrorPost(NOT_INITIALIZED)] && runs == old(runs)
        && manager.globalState == old(manager.globalState) && manager.secrets == old(manager.secrets)
      ensures old(hasClient) ==>
        var entries := old(manager.GetAccounts());
        var w := ChatWrite(entries, req, env, outcome);
        && posts == old(posts) + ChatPosts(entries, req, env, outcome)
        && runs == old(runs) + [ThreadRun(ThreadMessages(UserConversation(entries, req, env).messages), req.assistant, req.model)]
        && (w.Stored? ==> manager.globalState == old(manager.globalState)[ACCOUNTS_KEY := w.entries]
                          && manager.secrets == old(manager.secrets)[SecretKey(req.accountId) := None])
        && (!w.Stored? ==> manager.secrets == old(manager.secrets))
        && (!w.Stored? && Held(entries, req.accountId, req.conversationId) ==>
              manager.globalState == old(manager.globalState)[ACCOUNTS_KEY := HeldEdit(entries, req, env)])
        && (!w.Stored? && !Held(entries, req.accountId, req.conversationId) ==>
              manager.globalState == old(manager.globalState))
    {
      if !hasClient {
        posts := posts + [ErrorPost(NOT_INITIALIZED)];
        return;
      }
      var entries := manager.GetAccounts();
      var conversation := LegacyLookup(entries, req.accountId, req.conversationId, env.today);
      var userMessage := Message(env.userMessageId, req.message, Some(FromUser), Some(env.userTimestamp), None, None, None);
      conversation := conversation.(messages := conversation.messages + [userMessage], lastMessage := userMessage.content);
      assert conversation == UserConversation(entries, req, env);
      EditHeldConversation(entries, req, env, conversation);
      ghost var before := posts;
      ghost var head := [TypingStatusPost(true), ConversationPost(conversation)];
      posts := posts + [TypingStatusPost(true)];
      posts := posts + [ConversationPost(conversation)];
      AppendPair(before, TypingStatusPost(true), ConversationPost(conversation));
      runs := runs + [ThreadRun(ThreadMessages(conversation.messages), req.assistant, req.model)];
      FinishChat(entries, req, env, outcome, conversation);
      ConcatAssoc(before, head, ChatTail(entries, req, env, outcome));
    }

    /** After the service calls: the reply appended to the conversation, written back and
        posted; or, when the service calls or the write-back throw, the error and typing
        off. The list the global state holds is the one the turn began with, after the
        turn's in-place edit of the held conversation. */
    method FinishChat(entries: seq<LegacyEntry>, req: ChatRequest, env: TurnInputs, outcome: RunOutcome, conversation: Conversation)
      requires conversation == UserConversation(entries, req, env)
      requires Held(entries, req.accountId, req.conversationId) ==> manager.GetAccounts() == HeldEdit(entries, req, env)
      requires !Held(entries, req.accountId, req.conversationId) ==> manager.GetAccounts() == entries
      modifies this, manager
      ensures hasClient == old(hasClient) && runs == old(runs)
      ensures posts == old(posts) + ChatTail(entries, req, env, outcome)
      ensures var w := ChatWrite(entries, req, env, outcome);
        && (w.Stored? ==> manager.globalState == old(manager.globalState)[ACCOUNTS_KEY := w.entries]
                          && manager.secrets == old(manager.secrets)[SecretKey(req.accountId) := None])
        && (!w.Stored? ==> manager.globalState == old(manager.globalState) && manager.secrets == old(manager.secrets))
    {
      match outcome
      case RunFailed =>
        posts := posts + [ErrorPost(CHAT_FAILED)];
        posts := posts + [TypingStatusPost(false)];
        AppendPair(old(posts), ErrorPost(CHAT_FAILED), TypingStatusPost(false));
      case Replied(id, text) =>
        var assistantMessage := Message(id, text, Some(FromAssistant), Some(env.replyTimestamp), None, None, None);
        var reply := conversation.(messages := conversation.messages + [assistantMessage], lastMessage := assistantMessage.content);
        assert reply == ReplyConversation(UserConversation(entries, req, env), id, text, env);
        assert ChatWrite(entries, req, env, outcome) == UpdateOutcome(entries, req.accountId, reply);
        if Held(entries, req.accountId, req.conversationId) {
          HeldEditOverwritten(entries, req, env, reply);
        }
        var ok := UpdateConversation(req.accountId, reply);
        if ok {
          posts := posts + [TypingStatusPost(false)];
          posts := posts + [ConversationPost(reply)];
          AppendPair(old(posts), TypingStatusPost(false), ConversationPost(reply));
        } else {
          posts := posts + [ErrorPost(CHAT_FAILED)];
          posts := posts + [TypingStatusPost(false)];
          AppendPair(old(posts), ErrorPost(CHAT_FAILED), TypingStatusPost(false));
        }
    }

    /** `getAccounts`: the stored list is posted. */
    method GetAccounts()
      modifies this
      ensures posts == old(posts) + [AccountsPost(manager.GetAccounts())]
      ensures hasClient == old(hasClient) && runs == old(runs)
    {
      var accounts := manager.GetAccounts();
      posts := posts + [AccountsPost(accounts)];
    }

    /** `createAccount`: the payload goes to `storeAccount`. */
    method CreateAccount(id: string, name: string, apiKey: Option<string>)
      modifies manager
      ensures manager.GetAccounts() == old(manager.GetAccounts()) + [InfoOf(id, name)]
      ensures manager.secrets == old(manager.secrets)[SecretKey(id) := apiKey]
    {
      manager.StoreAccount(id, name, apiKey);
    }

    /** `deleteAccount`. */
    method DeleteAccount(accountId: string)
      modifies manager
      ensures manager.GetAccounts() == WithoutId(old(manager.GetAccounts()), accountId)
      ensures manager.secrets == old(manager.secrets) - {SecretKey(accountId)}
    {
      manager.DeleteAccount(accountId);
    }
  }
}
