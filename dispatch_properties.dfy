/** What the dispatch of webview messages guarantees: which messages reach the service, how the
    store messages change the accounts, the selection and the secret store, and the
    fall-through of "removeExtensionData" into "cancelRun". */
module DispatchProperties {
  import opened Types
  import opened AccountStore
  import opened ConversationMerge
  import opened Protocol
  import opened ChatTurn
  import opened TurnProperties
  import opened Orchestrator

  /** Every message only appends to what the handler posts, shows and hands on. */
  lemma DispatchOnlyAppends(s: HandlerState, msg: WebviewMessage, env: TurnEnv, ids: TurnIds, files: seq<string>)
    requires msg.SendChatMessage? ==> |env.uploads| == |msg.payload.fileContexts|
    ensures var r := Dispatch(s, msg, env, ids, files);
      s.host.sent <= r.host.sent && s.toasts <= r.toasts && s.deferred <= r.deferred
  {
    if msg.SendChatMessage? {
      TurnKeepsAccounts(s.host, msg.payload, env, ids);
    }
  }

  /** Only a chat message calls the service or touches the stream's turn; no message
      connects or drops the client, whose initialization is handed on. */
  lemma OnlyChatReachesService(s: HandlerState, msg: WebviewMessage, env: TurnEnv, ids: TurnIds, files: seq<string>)
    requires !msg.SendChatMessage?
    ensures var r := Dispatch(s, msg, env, ids, files);
      r.host.calls == s.host.calls && r.host.clientReady == s.host.clientReady && r.host.active == s.host.active
  {
  }

  /** A chat message changes nothing outside the part the turn works on. */
  lemma ChatTouchesOnlyHost(s: HandlerState, p: ChatPayload, env: TurnEnv, ids: TurnIds, files: seq<string>)
    requires |env.uploads| == |p.fileContexts|
    ensures Dispatch(s, SendChatMessage(p), env, ids, files).(host := s.host) == s
  {
  }

  /** A message of an unknown type changes nothing. */
  lemma UnhandledChangesNothing(s: HandlerState, messageType: string, env: TurnEnv, ids: TurnIds, files: seq<string>)
    ensures Dispatch(s, Unhandled(messageType), env, ids, files) == s
  {
  }

  /** "removeExtensionData" falls through into "cancelRun": it is the removal of every
      account followed by the cancellation. The accounts, the selection and the key of every
      stored account are gone, and the run is cancelled as "cancelRun" cancels it. */
  lemma RemoveExtensionDataFallsThrough(s: HandlerState, env: TurnEnv, ids: TurnIds, files: seq<string>)
    ensures Dispatch(s, RemoveExtensionData, env, ids, files) == Dispatch(DataRemoved(s), CancelRun, env, ids, files)
    ensures var r := Dispatch(s, RemoveExtensionData, env, ids, files);
      && r.host.accounts == [] && r.selected == None
      && (forall a :: a in s.host.accounts ==> SecretKey(a.id) !in r.secrets)
      && (forall k :: k in r.secrets <==> k in s.secrets && k !in SecretKeysOf(s.host.accounts))
      && r.host.currentRun == Cancelled(s.host.currentRun, s.host.clientReady)
      && r.host.sent == s.host.sent
  {
    var r := Dispatch(s, RemoveExtensionData, env, ids, files);
    forall a | a in s.host.accounts
      ensures SecretKey(a.id) !in r.secrets
    {
      assert SecretKey(a.id) in SecretKeysOf(s.host.accounts);
    }
  }

  /** "cancelRun" aborts the run exactly when there is one and a client, keeps its thread,
      and a second "cancelRun" changes nothing more. */
  lemma CancelRunSpec(s: HandlerState, env: TurnEnv, ids: TurnIds, files: seq<string>)
    ensures var r := Dispatch(s, CancelRun, env, ids, files);
      && r.(host := r.host.(currentRun := s.host.currentRun)) == s
      && (r.host.currentRun != s.host.currentRun
          <==> s.host.currentRun.Some? && s.host.clientReady && !s.host.currentRun.value.aborted)
      && (s.host.currentRun.Some? && s.host.clientReady ==> r.host.currentRun == Some(Run(s.host.currentRun.value.threadId, true)))
      && Dispatch(r, CancelRun, env, ids, files) == r
  {
    CancelledSpec(s.host.currentRun, s.host.clientReady);
  }

  /** "selectAccount" followed by "initClient" posts the new selection and asks for the
      client of that account twice: once for each message. */
  lemma SelectThenInitClient(s: HandlerState, accountId: string, env: TurnEnv, ids: TurnIds, files: seq<string>)
    ensures var r := Dispatch(Dispatch(s, SelectAccount(accountId), env, ids, files), InitClient, env, ids, files);
      && r.host.sent == s.host.sent + [UpdateAccounts(s.host.accounts, Some(accountId))]
      && r.deferred == s.deferred + [InitializeClient(accountId), InitializeClient(accountId)]
      && r.host.accounts == s.host.accounts && r.selected == Some(accountId)
  {
    var r1 := Dispatch(s, SelectAccount(accountId), env, ids, files);
    assert r1.deferred == s.deferred + [InitializeClient(accountId)];
  }

  /** "initClient" posts the accounts and asks for a client exactly when an account is
      selected, and for that account. */
  lemma InitClientSpec(s: HandlerState, env: TurnEnv, ids: TurnIds, files: seq<string>)
    ensures var r := Dispatch(s, InitClient, env, ids, files);
      && r.host.sent == s.host.sent + [UpdateAccounts(s.host.accounts, s.selected)]
      && (s.selected.None? ==> r.deferred == s.deferred)
      && (s.selected.Some? ==> r.deferred == s.deferred + [InitializeClient(s.selected.value)])
      && r.host.accounts == s.host.accounts && r.selected == s.selected && r.secrets == s.secrets
  {
  }

  /** "createAccount" keeps the key out of the stored record: the record sits at the first
      entry with the account's id, or last; a non-empty key is stored under the account's
      secret name and an empty or missing one leaves the secret store as it was. */
  lemma CreateAccountSpec(s: HandlerState, account: Account, env: TurnEnv, ids: TurnIds, files: seq<string>)
    ensures var r := Dispatch(s, CreateAccount(account), env, ids, files);
      var i := FindAccountIndex(r.host.accounts, account.id);
      && 0 <= i && r.host.accounts[i] == Record(account) && r.host.accounts[i].apiKey == None
      && (Truthy(account.apiKey) ==> SecretKey(account.id) in r.secrets && r.secrets[SecretKey(account.id)] == account.apiKey.value)
      && (!Truthy(account.apiKey) ==> r.secrets == s.secrets)
      && r.selected == s.selected && r.host.sent == s.host.sent
  {
    var info := Record(account);
    UpsertPlacesRecord(s.host.accounts, info);
    var k := FindAccountIndex(s.host.accounts, account.id);
    var at := if k >= 0 then k else |s.host.accounts|;
    var r := Dispatch(s, CreateAccount(account), env, ids, files);
    assert r.host.accounts[at].id == account.id;
    assert forall j :: 0 <= j < at ==> r.host.accounts[j].id != account.id;
  }

  /** "deleteAccount" removes every entry of the account, its key, and the selection exactly
      when it named the account; nothing is posted. */
  lemma DeleteAccountSpec(s: HandlerState, accountId: string, env: TurnEnv, ids: TurnIds, files: seq<string>)
    ensures var r := Dispatch(s, DeleteAccount(accountId), env, ids, files);
      && (forall a :: a in r.host.accounts <==> a in s.host.accounts && a.id != accountId)
      && SecretKey(accountId) !in r.secrets
      && (forall k :: k != SecretKey(accountId) ==> (k in r.secrets <==> k in s.secrets))
      && (r.selected == None <==> s.selected == None || s.selected == Some(accountId))
      && r.host.sent == s.host.sent
  {
  }

  /** "newConversation" pushes the conversation onto the webview's copy of the selected
      account without looking for its id: the stored record holds that copy's conversations
      followed by the new one, and the accounts are posted. Without a selected account
      nothing changes. */
  lemma NewConversationPushes(s: HandlerState, selected: Option<Account>, c: Conversation, env: TurnEnv, ids: TurnIds, files: seq<string>)
    ensures selected.None? ==> Dispatch(s, NewConversation(selected, c), env, ids, files) == s
    ensures selected.Some? ==>
      var r := Dispatch(s, NewConversation(selected, c), env, ids, files);
      var i := FindAccountIndex(r.host.accounts, selected.value.id);
      && 0 <= i
      && r.host.accounts[i].conversations == selected.value.conversations + [c]
      && r.host.accounts[i].apiKey == None
      && r.host.sent == s.host.sent + [UpdateAccounts(r.host.accounts, s.selected)]
  {
    if selected.Some? {
      var account := selected.value;
      var info := Record(account.(conversations := account.conversations + [c]));
      UpsertPlacesRecord(s.host.accounts, info);
      var k := FindAccountIndex(s.host.accounts, account.id);
      var at := if k >= 0 then k else |s.host.accounts|;
      var r := Dispatch(s, NewConversation(selected, c), env, ids, files);
      assert r.host.accounts[at].id == account.id;
      assert forall j :: 0 <= j < at ==> r.host.accounts[j].id != account.id;
    }
  }

  /** So a conversation whose id the selected account already has is stored twice. */
  lemma NewConversationKeepsDuplicate(s: HandlerState, account: Account, c: Conversation, env: TurnEnv, ids: TurnIds, files: seq<string>)
    requires HasConversation(account.conversations, c.id)
    ensures var r := Dispatch(s, NewConversation(Some(account), c), env, ids, files);
      var i := FindAccountIndex(r.host.accounts, account.id);
      0 <= i && !UniqueConversationIds(r.host.accounts[i].conversations)
  {
    NewConversationPushes(s, Some(account), c, env, ids, files);
    var r := Dispatch(s, NewConversation(Some(account), c), env, ids, files);
    var i := FindAccountIndex(r.host.accounts, account.id);
    var cs := r.host.accounts[i].conversations;
    var j :| 0 <= j < |account.conversations| && account.conversations[j].id == c.id;
    assert cs[j].id == cs[|cs| - 1].id;
    assert j < |cs| - 1;
  }

  /** "deleteConversation" removes the id from the first stored account with the account's
      id, keeps every other account and the number of accounts, and posts the accounts; an
      unknown account changes nothing. */
  lemma DeleteConversationSpec(s: HandlerState, accountId: string, conversationId: string, env: TurnEnv, ids: TurnIds, files: seq<string>)
    requires forall a :: a in s.host.accounts ==> a.apiKey == None
    ensures var r := Dispatch(s, DeleteConversation(accountId, conversationId), env, ids, files);
      var i := FindAccountIndex(s.host.accounts, accountId);
      && (i == -1 ==> r == s)
      && (i >= 0 ==>
            && |r.host.accounts| == |s.host.accounts|
            && r.host.accounts[i].id == accountId
            && r.host.accounts[i].conversations == WithoutConversation(s.host.accounts[i].conversations, conversationId)
            && !HasConversation(r.host.accounts[i].conversations, conversationId)
            && (forall j :: 0 <= j < |s.host.accounts| && j != i ==> r.host.accounts[j] == s.host.accounts[j])
            && r.secrets == s.secrets
            && r.host.sent == s.host.sent + [UpdateAccounts(r.host.accounts, s.selected)])
  {
    var i := FindAccountIndex(s.host.accounts, accountId);
    if i >= 0 {
      var account := s.host.accounts[i];
      assert account in s.host.accounts;
      var info := Record(account.(conversations := WithoutConversation(account.conversations, conversationId)));
      assert FindAccountIndex(s.host.accounts, info.id) == i;
    }
  }
}
