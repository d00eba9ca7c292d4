/** What the webview's action creators and its handler of extension commands guarantee: when
    they do nothing, what they send, and the state the reducer reaches from their dispatches. */
module GlobalStateProperties {
  import opened Types
  import opened Reducer
  import opened GlobalStateContext
  import Protocol

  /** Effects issued one list after another have the effect of the whole list. */
  lemma {:induction false} ApplyConcat(s: GlobalState, a: seq<Effect>, b: seq<Effect>)
    ensures Apply(s, a + b) == Apply(Apply(s, a), b)
    ensures SentMessages(a + b) == SentMessages(a) + SentMessages(b)
    decreases |a|
  {
    if a != [] {
      assert (a + b)[1..] == a[1..] + b;
      ApplyConcat(Step(s, a[0]), a[1..], b);
    } else {
      assert a + b == b;
    }
  }

  // The short lists the action creators issue, effect by effect.

  lemma Unroll1(s: GlobalState, a: Effect)
    ensures Apply(s, [a]) == Step(s, a) && SentMessages([a]) == Out(a)
  {
    assert [a][1..] == [];
  }

  lemma Unroll2(s: GlobalState, a: Effect, b: Effect)
    ensures Apply(s, [a, b]) == Step(Step(s, a), b)
    ensures SentMessages([a, b]) == Out(a) + Out(b)
  {
    assert [a, b][1..] == [b];
    Unroll1(Step(s, a), b);
  }

  lemma Unroll3(s: GlobalState, a: Effect, b: Effect, c: Effect)
    ensures Apply(s, [a, b, c]) == Step(Step(Step(s, a), b), c)
    ensures SentMessages([a, b, c]) == Out(a) + Out(b) + Out(c)
  {
    assert [a, b, c][1..] == [b, c];
    Unroll2(Step(s, a), b, c);
  }

  lemma Unroll4(s: GlobalState, a: Effect, b: Effect, c: Effect, d: Effect)
    ensures Apply(s, [a, b, c, d]) == Step(Step(Step(Step(s, a), b), c), d)
    ensures SentMessages([a, b, c, d]) == Out(a) + Out(b) + Out(c) + Out(d)
  {
    assert [a, b, c, d][1..] == [b, c, d];
    Unroll3(Step(s, a), b, c, d);
  }

  lemma Unroll5(s: GlobalState, a: Effect, b: Effect, c: Effect, d: Effect, e: Effect)
    ensures Apply(s, [a, b, c, d, e]) == Step(Step(Step(Step(Step(s, a), b), c), d), e)
    ensures SentMessages([a, b, c, d, e]) == Out(a) + Out(b) + Out(c) + Out(d) + Out(e)
  {
    var rest := [b, c, d, e];
    assert [a, b, c, d, e][1..] == rest;
    Unroll4(Step(s, a), b, c, d, e);
    assert SentMessages([a, b, c, d, e]) == Out(a) + SentMessages(rest);
    var oa, ob, oc, od, oe := Out(a), Out(b), Out(c), Out(d), Out(e);
    ConcatAssoc(oa, ob + oc + od, oe);
    ConcatAssoc(oa, ob + oc, od);
    ConcatAssoc(oa, ob, oc);
  }

  /** Any list of at most five effects, effect by effect. */
  lemma UnrollShort(s: GlobalState, e: seq<Effect>)
    requires |e| <= 5
    ensures |e| == 0 ==> Apply(s, e) == s && SentMessages(e) == []
    ensures |e| == 1 ==> Apply(s, e) == Step(s, e[0]) && SentMessages(e) == Out(e[0])
    ensures |e| == 2 ==> Apply(s, e) == Step(Step(s, e[0]), e[1]) && SentMessages(e) == Out(e[0]) + Out(e[1])
    ensures |e| == 3 ==> Apply(s, e) == Step(Step(Step(s, e[0]), e[1]), e[2])
                         && SentMessages(e) == Out(e[0]) + Out(e[1]) + Out(e[2])
    ensures |e| == 4 ==> Apply(s, e) == Step(Step(Step(Step(s, e[0]), e[1]), e[2]), e[3])
                         && SentMessages(e) == Out(e[0]) + Out(e[1]) + Out(e[2]) + Out(e[3])
    ensures |e| == 5 ==> Apply(s, e) == Step(Step(Step(Step(Step(s, e[0]), e[1]), e[2]), e[3]), e[4])
                         && SentMessages(e) == Out(e[0]) + Out(e[1]) + Out(e[2]) + Out(e[3]) + Out(e[4])
  {
    if |e| == 1 {
      assert e == [e[0]];
      Unroll1(s, e[0]);
    } else if |e| == 2 {
      assert e == [e[0], e[1]];
      Unroll2(s, e[0], e[1]);
    } else if |e| == 3 {
      assert e == [e[0], e[1], e[2]];
      Unroll3(s, e[0], e[1], e[2]);
    } else if |e| == 4 {
      assert e == [e[0], e[1], e[2], e[3]];
      Unroll4(s, e[0], e[1], e[2], e[3]);
    } else if |e| == 5 {
      assert e == [e[0], e[1], e[2], e[3], e[4]];
      Unroll5(s, e[0], e[1], e[2], e[3], e[4]);
    }
  }

  /** Only dispatches change the state: a list of sends leaves it alone. */
  lemma {:induction false} SendsKeepState(s: GlobalState, effects: seq<Effect>)
    requires forall k :: 0 <= k < |effects| ==> effects[k].Sent?
    ensures Apply(s, effects) == s
    ensures |SentMessages(effects)| == |effects|
    decreases |effects|
  {
    if effects != [] {
      SendsKeepState(s, effects[1..]);
    }
  }

  /** Every context item is kept, in order, as its name: the three kinds a context item can
      be are exactly those the filter lets through. */
  lemma {:induction false} FileContextsKeepEveryItem(items: seq<ContextItem>)
    ensures |FileContexts(items)| == |items|
    ensures forall k :: 0 <= k < |items| ==> FileContexts(items)[k] == items[k].name
    decreases |items|
  {
    if items != [] {
      assert items[0].kind in {FileItem, FileContextItem, SourceCodeItem} by {
        match items[0].kind
        case FileItem =>
        case FileContextItem =>
        case SourceCodeItem =>
      }
      FileContextsKeepEveryItem(items[1..]);
    }
  }

  /** In a list whose models are named by their ids, the name found for a listed id is that id. */
  lemma {:induction false} ModelNameOfNamedList(list: seq<ModelInfo>, id: string)
    requires forall k :: 0 <= k < |list| ==> list[k].name == list[k].id
    ensures ModelName(list, id).Some? ==> ModelName(list, id) == Some(id)
    decreases |list|
  {
    if list != [] && list[0].id != id {
      ModelNameOfNamedList(list[1..], id);
    }
  }

  /** `selectAccount` does nothing for an empty id or while the client status is not idle;
      otherwise it starts loading, clears the error and the current conversation, selects the
      account, and only then asks the extension to select it. */
  lemma SelectAccountSpec(s: GlobalState, accountId: string)
    ensures var e := SelectAccountEffects(s, accountId);
      && (e == [] <==> accountId == "" || s.openAIClientStatus.status != Idle)
      && (e != [] ==>
            && Apply(s, e) == s.(isLoading := true, error := None, currentConversation := None, selectedAccountId := Some(accountId))
            && SentMessages(e) == [Protocol.SelectAccount(accountId)]
            && e[|e| - 1] == Sent(Protocol.SelectAccount(accountId))
            && (forall k :: 0 <= k < |e| - 1 ==> e[k].Dispatched?))
  {
    var e := SelectAccountEffects(s, accountId);
    if e != [] {
      Unroll5(s, e[0], e[1], e[2], e[3], e[4]);
      assert Step(Step(s, e[0]), e[1]) == s.(isLoading := true, error := None);
    }
  }

  /** The four effects of an account creation, one at a time. */
  lemma CreateAccountSteps(s: GlobalState, newId: string)
    requires s.newAccountName != "" && s.newAccountApiKey != ""
    ensures var e := CreateAccountEffects(s, newId);
      && Apply(s, e) == s.(newAccountName := "", newAccountApiKey := "", isLoading := true)
      && SentMessages(e) == [Protocol.CreateAccount(NewAccount(s, newId))]
  {
    var name := Dispatched(SetNewAccountName(""));
    var key := Dispatched(SetNewAccountApiKey(""));
    var loading := Dispatched(SetIsLoading(true));
    var request := Sent(Protocol.CreateAccount(NewAccount(s, newId)));
    assert CreateAccountEffects(s, newId) == [name, key, loading, request];
    Unroll4(s, name, key, loading, request);
    SettersChangeOneField(s, name.action);
    var s1 := s.(newAccountName := "");
    SettersChangeOneField(s1, key.action);
    var s2 := s1.(newAccountApiKey := "");
    SettersChangeOneField(s2, loading.action);
    assert s2.(isLoading := true) == s.(newAccountName := "", newAccountApiKey := "", isLoading := true);
  }

  /** `handleCreateAccount` does nothing while the name or the key is empty; otherwise it
      clears both fields and starts loading, and sends an account built from the values the
      fields had before: the fresh id, the name, the key, and nothing else. */
  lemma CreateAccountSpec(s: GlobalState, newId: string)
    ensures var e := CreateAccountEffects(s, newId);
      && (e == [] <==> s.newAccountName == "" || s.newAccountApiKey == "")
      && (e != [] ==>
            && Apply(s, e) == s.(newAccountName := "", newAccountApiKey := "", isLoading := true)
            && exists a ::
                 && SentMessages(e) == [Protocol.CreateAccount(a)]
                 && a.id == newId && a.name == s.newAccountName && a.apiKey == Some(s.newAccountApiKey)
                 && a.conversations == [] && a.assistants == [] && a.models == [])
  {
    if s.newAccountName != "" && s.newAccountApiKey != "" {
      var a := NewAccount(s, newId);
      CreateAccountSteps(s, newId);
      assert SentMessages(CreateAccountEffects(s, newId)) == [Protocol.CreateAccount(a)];
    }
  }

  /** `handleDeleteAccount` starts loading and asks for the deletion; the account stays until
      the extension posts the new list. */
  lemma DeleteAccountSpec(s: GlobalState, accountId: string)
    ensures Apply(s, DeleteAccountEffects(accountId)) == s.(isLoading := true)
    ensures SentMessages(DeleteAccountEffects(accountId)) == [Protocol.DeleteAccount(accountId)]
  {
    Unroll2(s, Dispatched(SetIsLoading(true)), Sent(Protocol.DeleteAccount(accountId)));
  }

  /** `handleRemoveExtensionData` sends the request before anything else, then empties the
      accounts, clears the selection with a null and clears the account form; it leaves the
      loading flag down. */
  lemma RemoveExtensionDataSpec(s: GlobalState)
    ensures var e := RemoveExtensionDataEffects();
      && e[0] == Sent(Protocol.RemoveExtensionData)
      && SentMessages(e) == [Protocol.RemoveExtensionData]
      && Apply(s, e) == s.(accounts := [], selectedAccountId := None, isLoading := false, newAccountName := "", newAccountApiKey := "")
  {
    var e := RemoveExtensionDataEffects();
    Unroll4(s, e[0], e[1], e[2], e[3]);
    var s2 := Step(Step(s, e[0]), e[1]);
    assert s2 == s.(accounts := [], selectedAccountId := None, isLoading := false) by {
      UpdateAccountsSpec(s, [], Some(None));
    }
    SettersChangeOneField(s2, SetNewAccountName(""));
    SettersChangeOneField(s2.(newAccountName := ""), SetNewAccountApiKey(""));
  }

  /** `handleSendChatMessage` does nothing without a current conversation or a selected
      account; otherwise it changes no state and sends one chat message addressed to the
      selected account and the current conversation, carrying the text, the selected
      assistant and model, and the name of every context item in order. */
  lemma SendChatMessageSpec(s: GlobalState, content: string, items: seq<ContextItem>)
    ensures var e := SendChatMessageEffects(s, content, items);
      && (e == [] <==> s.currentConversation.None? || SelectedAccountOf(s).None?)
      && Apply(s, e) == s
      && (e != [] ==>
            exists p ::
              && SentMessages(e) == [Protocol.SendChatMessage(p)]
              && Some(p.accountId) == s.selectedAccountId
              && p.conversationId == s.currentConversation.value.id
              && p.message == content
              && p.assistantId == s.selectedAssistant && p.modelId == s.selectedModel
              && |p.fileContexts| == |items|
              && (forall k :: 0 <= k < |items| ==> p.fileContexts[k] == items[k].name))
  {
    var e := SendChatMessageEffects(s, content, items);
    if e != [] {
      Unroll1(s, e[0]);
      FileContextsKeepEveryItem(items);
    }
  }

  /** Putting the current conversation back restores the state. */
  lemma RestoreCurrentConversation(s: GlobalState, c: Option<Conversation>)
    ensures s.(currentConversation := c).(currentConversation := s.currentConversation) == s
  {
  }

  /** Deleting the current conversation clears it and sends the request. */
  lemma DeleteCurrentConversation(s: GlobalState, conversationId: string)
    requires SelectedAccountOf(s).Some?
    requires s.currentConversation.Some? && s.currentConversation.value.id == conversationId
    ensures var e := DeleteConversationEffects(s, conversationId);
      && e != [] && Apply(s, e) == s.(currentConversation := None)
      && SentMessages(e) == [Protocol.DeleteConversation(SelectedAccountOf(s).value.id, conversationId)]
  {
    var e := DeleteConversationEffects(s, conversationId);
    var request := Sent(Protocol.DeleteConversation(SelectedAccountOf(s).value.id, conversationId));
    var cleared := Dispatched(SetCurrentConversation(None));
    assert e == [cleared, request];
    Unroll2(s, cleared, request);
    assert Step(s, cleared) == s.(currentConversation := None);
  }

  /** Deleting another conversation only sends the request. */
  lemma DeleteOtherConversation(s: GlobalState, conversationId: string)
    requires SelectedAccountOf(s).Some?
    requires !(s.currentConversation.Some? && s.currentConversation.value.id == conversationId)
    ensures var e := DeleteConversationEffects(s, conversationId);
      && e != [] && Apply(s, e) == s
      && SentMessages(e) == [Protocol.DeleteConversation(SelectedAccountOf(s).value.id, conversationId)]
  {
    var e := DeleteConversationEffects(s, conversationId);
    var request := Sent(Protocol.DeleteConversation(SelectedAccountOf(s).value.id, conversationId));
    assert e == [request];
    Unroll1(s, request);
  }

  /** `handleDeleteConversation` does nothing without a selected account; otherwise it clears
      the current conversation exactly when it is the deleted one, changes nothing else, and
      asks the selected account to delete the conversation. */
  lemma DeleteConversationSpec(s: GlobalState, conversationId: string)
    ensures var e := DeleteConversationEffects(s, conversationId);
      && (e == [] <==> SelectedAccountOf(s).None?)
      && (e != [] ==>
            var t := Apply(s, e);
            && SentMessages(e) == [Protocol.DeleteConversation(s.selectedAccountId.value, conversationId)]
            && (t.currentConversation == None
                <==> s.currentConversation == None || s.currentConversation.value.id == conversationId)
            && t.(currentConversation := s.currentConversation) == s)
    ensures Apply(s, DeleteConversationEffects(s, conversationId)).currentConversation != s.currentConversation
      ==> s.currentConversation.Some? && s.currentConversation.value.id == conversationId
  {
    if SelectedAccountOf(s).Some? {
      if s.currentConversation.Some? && s.currentConversation.value.id == conversationId {
        DeleteCurrentConversation(s, conversationId);
        RestoreCurrentConversation(s, None);
      } else {
        DeleteOtherConversation(s, conversationId);
      }
    }
  }

  /** `createNewConversation` does nothing without a selected account; otherwise the new
      conversation is made current first and then sent with the selected account. Its title
      is the given one or "Conversation <id>", and it has no messages and no thread. */
  lemma NewConversationSpec(s: GlobalState, title: string, newId: string, today: string)
    ensures var e := NewConversationEffects(s, title, newId, today);
      && (e == [] <==> SelectedAccountOf(s).None?)
      && (e != [] ==>
            var c := NewConversation(title, newId, today);
            && e[0] == Dispatched(SetCurrentConversation(Some(c)))
            && Apply(s, e) == s.(currentConversation := Some(c))
            && SentMessages(e) == [Protocol.NewConversation(SelectedAccountOf(s), c)]
            && SelectedAccountOf(s).value.id == s.selectedAccountId.value
            && c.messages == [] && c.threadId == None
            && c.title == (if title == "" then "Conversation " + newId else title))
  {
    var e := NewConversationEffects(s, title, newId, today);
    if e != [] {
      Unroll2(s, e[0], e[1]);
    }
  }

  /** Choosing an assistant or a model records it and tells the extension. */
  lemma ChooseAssistantAndModelSpec(s: GlobalState, id: string)
    ensures Apply(s, SetSelectedAssistantEffects(id)) == s.(selectedAssistant := id)
    ensures SentMessages(SetSelectedAssistantEffects(id)) == [Protocol.UpdateAssistant(id)]
    ensures Apply(s, SetSelectedModelEffects(id)) == s.(selectedModel := id)
    ensures SentMessages(SetSelectedModelEffects(id)) == [Protocol.UpdateModel(id)]
  {
    Unroll2(s, Dispatched(SetSelectedAssistant(id)), Sent(Protocol.UpdateAssistant(id)));
    Unroll2(s, Dispatched(SetSelectedModel(id)), Sent(Protocol.UpdateModel(id)));
  }

  /** A refresh marks the lists loading and asks the extension for them; "refresh-Error" and
      "updateLists" both end that loading. */
  lemma RefreshLoadingSpec(s: GlobalState, message: string, assistants: seq<AssistantInfo>, models: seq<ModelInfo>)
    ensures Apply(s, RefreshEffects()).loadingModelsAndAssistants
    ensures SentMessages(RefreshEffects()) == [Protocol.RefreshModelsAndAssistants]
    ensures !Apply(s, InboundEffects(Protocol.RefreshError(message))).loadingModelsAndAssistants
    ensures !Apply(s, InboundEffects(Protocol.UpdateLists(assistants, models))).loadingModelsAndAssistants
  {
    RefreshMarksLoading(s);
    RefreshErrorEndsLoading(s, message);
    InboundListsSpec(s, assistants, models);
  }

  lemma RefreshMarksLoading(s: GlobalState)
    ensures Apply(s, RefreshEffects()).loadingModelsAndAssistants
    ensures SentMessages(RefreshEffects()) == [Protocol.RefreshModelsAndAssistants]
  {
    var e := RefreshEffects();
    Unroll2(s, e[0], e[1]);
  }

  lemma RefreshErrorEndsLoading(s: GlobalState, message: string)
    ensures !Apply(s, InboundEffects(Protocol.RefreshError(message))).loadingModelsAndAssistants
  {
    var e := InboundEffects(Protocol.RefreshError(message));
    Unroll2(s, e[0], e[1]);
  }

  // ---------------------------------------------------------------- commands from the extension

  /** Of all the commands from the extension, only "refresh-Error" makes the webview send
      anything: a request for an error toast with the message. */
  lemma OnlyRefreshErrorSends(m: Protocol.HostMessage)
    ensures SentMessages(InboundEffects(m)) == (if m.RefreshError? then [Protocol.ShowToast("error", m.message)] else [])
  {
    UnrollShort(INITIAL, InboundEffects(m));
  }

  /** "updateAccounts" stores the list and ends loading; a selection the extension leaves out
      keeps the webview's, one it gives replaces it. */
  lemma InboundAccountsSpec(s: GlobalState, accounts: seq<Account>, selectedAccountId: Option<string>)
    ensures var t := Apply(s, InboundEffects(Protocol.UpdateAccounts(accounts, selectedAccountId)));
      && t.accounts == accounts && !t.isLoading
      && (selectedAccountId.None? ==> t.selectedAccountId == s.selectedAccountId)
      && (selectedAccountId.Some? ==> t.selectedAccountId == selectedAccountId)
      && t.(accounts := s.accounts, selectedAccountId := s.selectedAccountId, isLoading := s.isLoading) == s
  {
    UnrollShort(s, InboundEffects(Protocol.UpdateAccounts(accounts, selectedAccountId)));
  }

  /** "updateLists" stores the assistants and the models with every model named by its id,
      selects the first of each, and ends both loadings. */
  lemma InboundListsSpec(s: GlobalState, assistants: seq<AssistantInfo>, models: seq<ModelInfo>)
    ensures var t := Apply(s, InboundEffects(Protocol.UpdateLists(assistants, models)));
      && t.assistants == assistants
      && |t.models| == |models|
      && (forall k :: 0 <= k < |models| ==>
            t.models[k].id == models[k].id && t.models[k].name == models[k].id && t.models[k].created == models[k].created)
      && t.selectedAssistant == (if assistants == [] then "" else assistants[0].id)
      && t.selectedModel == (if models == [] then "" else models[0].id)
      && !t.isLoading && !t.loadingModelsAndAssistants
  {
    var e := InboundEffects(Protocol.UpdateLists(assistants, models));
    Unroll4(s, e[0], e[1], e[2], e[3]);
    assert Step(s, e[0]) == s.(assistants := assistants, selectedAssistant := FirstAssistantId(assistants));
  }

  /** So once the lists have arrived, a chat message names its model by the model's id. */
  lemma ChatAfterListsNamesModelById(s: GlobalState, assistants: seq<AssistantInfo>, models: seq<ModelInfo>, content: string, items: seq<ContextItem>)
    requires models != []
    ensures var t := Apply(s, InboundEffects(Protocol.UpdateLists(assistants, models)));
      var e := SendChatMessageEffects(t, content, items);
      e != [] ==> e[0].message.payload.modelName == Some(e[0].message.payload.modelId)
  {
    var t := Apply(s, InboundEffects(Protocol.UpdateLists(assistants, models)));
    InboundListsSpec(s, assistants, models);
    ModelNameOfNamedList(t.models, t.selectedModel);
    assert t.models[0].id == t.selectedModel;
  }

  /** "error" records the message, ends loading and marks the client failed with it. */
  lemma InboundErrorSpec(s: GlobalState, message: string)
    ensures Apply(s, InboundEffects(Protocol.ErrorMessage(message)))
      == s.(error := Some(message), isLoading := false, openAIClientStatus := ClientStatus(Failed, Some(message), None, None))
  {
    UnrollShort(s, InboundEffects(Protocol.ErrorMessage(message)));
  }

  /** "openAIClient-Connecting" marks the client connecting and raises the loading flag. */
  lemma InboundConnectingSpec(s: GlobalState)
    ensures Apply(s, InboundEffects(Protocol.ClientConnecting)) == s.(isLoading := true, openAIClientStatus := StatusOnly(Connecting))
  {
    var e := InboundEffects(Protocol.ClientConnecting);
    Unroll2(s, e[0], e[1]);
    assert Step(s, e[0]) == s.(isLoading := true);
  }

  /** "openAIClient-Connected" and "openAIClient-Done" move the status on and lower the
      loading flag. */
  lemma InboundConnectedSpec(s: GlobalState)
    ensures Apply(s, InboundEffects(Protocol.ClientConnected)) == s.(isLoading := false, openAIClientStatus := StatusOnly(Connected))
    ensures Apply(s, InboundEffects(Protocol.ClientDone)) == s.(isLoading := false, openAIClientStatus := StatusOnly(Done))
  {
    var e := InboundEffects(Protocol.ClientConnected);
    Unroll2(s, e[0], e[1]);
    assert Step(s, e[0]) == s.(openAIClientStatus := StatusOnly(Connected));
    var d := InboundEffects(Protocol.ClientDone);
    Unroll2(s, d[0], d[1]);
    assert Step(s, d[0]) == s.(openAIClientStatus := StatusOnly(Done));
  }

  /** The retrieval reports carry their counts and leave the loading flag alone. */
  lemma InboundRetrievalSpec(s: GlobalState, count: int)
    ensures Apply(s, InboundEffects(Protocol.AssistantsRetrieved(count)))
      == s.(openAIClientStatus := ClientStatus(RetrievingAssistants, None, Some(count), None))
    ensures Apply(s, InboundEffects(Protocol.ModelsRetrieved(count)))
      == s.(openAIClientStatus := ClientStatus(RetrievingModels, None, None, Some(count)))
  {
    Unroll1(s, InboundEffects(Protocol.AssistantsRetrieved(count))[0]);
    Unroll1(s, InboundEffects(Protocol.ModelsRetrieved(count))[0]);
  }

  /** A run of the status reports from connecting to done leaves the client done and not
      loading, whatever the counts. */
  lemma ConnectionSequenceEndsDone(s: GlobalState, assistantsCount: int, modelsCount: int)
    ensures var t := Apply(s,
      InboundEffects(Protocol.ClientConnecting) + InboundEffects(Protocol.ClientConnected)
      + InboundEffects(Protocol.AssistantsRetrieved(assistantsCount)) + InboundEffects(Protocol.ModelsRetrieved(modelsCount))
      + InboundEffects(Protocol.ClientDone));
      t == s.(isLoading := false, openAIClientStatus := StatusOnly(Done))
  {
    var e1 := InboundEffects(Protocol.ClientConnecting);
    var e2 := InboundEffects(Protocol.ClientConnected);
    var e3 := InboundEffects(Protocol.AssistantsRetrieved(assistantsCount));
    var e4 := InboundEffects(Protocol.ModelsRetrieved(modelsCount));
    var e5 := InboundEffects(Protocol.ClientDone);
    ApplyConcat(s, e1 + e2 + e3 + e4, e5);
    ApplyConcat(s, e1 + e2 + e3, e4);
    ApplyConcat(s, e1 + e2, e3);
    ApplyConcat(s, e1, e2);
    var s1 := Apply(s, e1);
    InboundConnectingSpec(s);
    var s2 := Apply(s1, e2);
    InboundConnectedSpec(s1);
    var s3 := Apply(s2, e3);
    InboundRetrievalSpec(s2, assistantsCount);
    var s4 := Apply(s3, e4);
    InboundRetrievalSpec(s3, modelsCount);
    InboundConnectedSpec(s4);
  }

  /** "updateTypingStatus" sets the typing flag and the loading flag with it; an
      "updateMessage" patches the current conversation; the commands the handler has no case
      for change nothing. */
  lemma InboundOtherSpec(s: GlobalState, m: Protocol.HostMessage)
    ensures m.UpdateTypingStatus? ==>
      Apply(s, InboundEffects(m)) == s.(isAssistantTyping := m.isTyping, isLoading := m.isTyping)
    ensures m.UpdateMessage? ==>
      Apply(s, InboundEffects(m)) == Reduce(s, UpdateMessage(MessagePatch(m.messageId, m.content, m.modelName, m.assistantName, m.timestamp)))
    ensures m.UpdateConversation? ==> Apply(s, InboundEffects(m)) == Reduce(s, UpdateConversation(m.conversation))
    ensures m.UpdateWorkspaceFiles? ==> Apply(s, InboundEffects(m)) == s.(workspaceFiles := m.files)
    ensures m.ToolCall? || m.ClientError? || m.ConversationDeleted? ==> Apply(s, InboundEffects(m)) == s
  {
    UnrollShort(s, InboundEffects(m));
  }

  /** The flag `isClientInitialized` holds after the recomputation exactly when there are
      models, an account is selected and nothing is loading; nothing else changes. */
  lemma ClientInitializedSpec(s: GlobalState)
    ensures var t := Apply(s, SyncEffects(s));
      && (t.isClientInitialized <==> |s.models| > 0 && s.selectedAccountId.Some? && !s.isLoading)
      && t.(isClientInitialized := s.isClientInitialized) == s
  {
    UnrollShort(s, SyncEffects(s));
  }
}
