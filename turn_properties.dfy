/** What the set-up of a chat turn guarantees: how it ends for each answer of the service,
    what it does to the conversation and the store, which thread the run is started on and
    how the file contexts are uploaded. */
module TurnProperties {
  import opened Types
  import opened Text
  import opened AccountStore
  import opened ConversationMerge
  import opened FileContext
  import opened Protocol
  import opened ChatTurn
  import opened UploadProperties

  /** Two account lists with the same ids at the same positions. */
  predicate SameAccountIds(a: seq<Account>, b: seq<Account>) {
    |a| == |b| && forall j :: 0 <= j < |a| ==> a[j].id == b[j].id
  }

  /** `account` holds `c` as its one conversation with that id. */
  predicate Holds(account: Account, c: Conversation) {
    HasConversation(account.conversations, c.id)
    && forall j :: 0 <= j < |account.conversations| && account.conversations[j].id == c.id ==>
         account.conversations[j] == c
  }

  predicate KnownAccount(accounts: seq<Account>, accountId: string) {
    exists j :: 0 <= j < |accounts| && accounts[j].id == accountId
  }

  /** The conversation a turn starts from: the stored one or the default. */
  function Looked(h: HostState, p: ChatPayload, ids: TurnIds): Conversation {
    LookupConversation(h.accounts, p.accountId, p.conversationId, ids.today)
  }

  lemma SameIdsTransitive(a: seq<Account>, b: seq<Account>, c: seq<Account>)
    requires SameAccountIds(a, b) && SameAccountIds(b, c)
    ensures SameAccountIds(a, c)
  {
  }

  /** Lists with the same ids agree on where an id first occurs. */
  lemma SameIdsSameIndex(a: seq<Account>, b: seq<Account>, id: string)
    requires SameAccountIds(a, b)
    ensures FindAccountIndex(a, id) == FindAccountIndex(b, id)
  {
    var i := FindAccountIndex(a, id);
    var k := FindAccountIndex(b, id);
    if i >= 0 {
      assert b[i].id == id;
    }
    if k >= 0 {
      assert a[k].id == id;
    }
  }

  /** Persisting a conversation never adds, removes or reorders accounts. */
  lemma PersistKeepsIds(h: HostState, accountId: string, c: Conversation)
    ensures SameAccountIds(h.accounts, Persist(h, accountId, c).accounts)
  {
    if KnownAccount(h.accounts, accountId) {
      UpdatedAccountsKnown(h.accounts, accountId, c);
    } else {
      UpdatedAccountsUnknown(h.accounts, accountId, c);
    }
  }

  /** Persisting for a known account leaves the conversation in the store at the account's
      first position, and posts it to the webview. */
  lemma PersistStores(h: HostState, accountId: string, c: Conversation)
    requires KnownAccount(h.accounts, accountId)
    ensures var r := Persist(h, accountId, c);
      var i := FindAccountIndex(r.accounts, accountId);
      && 0 <= i && Holds(r.accounts[i], c)
      && r.sent == h.sent + [UpdateConversation(c, Some(accountId))]
  {
    UpdatedAccountsKnown(h.accounts, accountId, c);
    PersistKeepsIds(h, accountId, c);
    SameIdsSameIndex(h.accounts, Persist(h, accountId, c).accounts, accountId);
  }

  /** `r` extends `h` without touching the store's layout, the run or the stream's turn. */
  predicate Grows(h: HostState, r: HostState) {
    && SameAccountIds(h.accounts, r.accounts)
    && r.currentRun == h.currentRun && r.active == h.active
    && h.sent <= r.sent
  }

  lemma PersistGrows(h: HostState, accountId: string, c: Conversation)
    ensures Grows(h, Persist(h, accountId, c))
    ensures Persist(h, accountId, c).calls == h.calls
  {
    PersistKeepsIds(h, accountId, c);
  }

  lemma GrowsTransitive(a: HostState, b: HostState, c: HostState)
    requires Grows(a, b) && Grows(b, c)
    ensures Grows(a, c)
  {
  }

  /** The thread check of the lookup only extends the host, and never changes anything of the
      conversation but its thread id. */
  lemma ProbeGrows(h: HostState, accountId: string, c: Conversation, env: TurnEnv)
    ensures Grows(h, Probe(h, accountId, c, env).0)
    ensures Probe(h, accountId, c, env).1.Some? ==>
      Probe(h, accountId, c, env).1.value == c.(threadId := Probe(h, accountId, c, env).1.value.threadId)
  {
    if Truthy(c.threadId) && h.clientReady && !env.probeRetrieveOk && env.probeThread.Ok? {
      var h1 := h.(calls := h.calls + [RetrieveThread(c.threadId.value)]);
      var h2 := h1.(calls := h1.calls + [CreateThread]);
      PersistGrows(h2, accountId, c.(threadId := Some(env.probeThread.value)));
    }
  }

  lemma ProbeNamed(h: HostState, accountId: string, c: Conversation, env: TurnEnv)
    requires UploadsNamed(h.calls)
    ensures UploadsNamed(Probe(h, accountId, c, env).0.calls)
  {
    if Truthy(c.threadId) && h.clientReady {
      var h1 := h.(calls := h.calls + [RetrieveThread(c.threadId.value)]);
      NamedAppend(h.calls, RetrieveThread(c.threadId.value));
      if !env.probeRetrieveOk {
        var h2 := h1.(calls := h1.calls + [CreateThread]);
        NamedAppend(h1.calls, CreateThread);
        if env.probeThread.Ok? {
          PersistGrows(h2, accountId, c.(threadId := Some(env.probeThread.value)));
        }
      }
    }
  }

  lemma NewThreadGrows(h: HostState, accountId: string, c: Conversation, env: TurnEnv)
    ensures Grows(h, NewThread(h, accountId, c, env).0)
    ensures NewThread(h, accountId, c, env).0.calls == h.calls + [CreateThread]
    ensures NewThread(h, accountId, c, env).1.Ok? ==>
      NewThread(h, accountId, c, env).1.value == c.(threadId := Some(env.newThread.value))
  {
    var h1 := h.(calls := h.calls + [CreateThread]);
    if env.newThread.Ok? {
      PersistGrows(h1, accountId, c.(threadId := Some(env.newThread.value)));
    }
  }

  lemma EnsureThreadGrows(h: HostState, accountId: string, c: Conversation, env: TurnEnv)
    ensures Grows(h, EnsureThread(h, accountId, c, env).0)
    ensures EnsureThread(h, accountId, c, env).1.Ok? ==>
      EnsureThread(h, accountId, c, env).1.value == c.(threadId := EnsureThread(h, accountId, c, env).1.value.threadId)
  {
    if Truthy(c.threadId) {
      NewThreadGrows(h.(calls := h.calls + [RetrieveThread(c.threadId.value)]), accountId, c, env);
    } else {
      NewThreadGrows(h, accountId, c, env);
    }
  }

  lemma EnsureThreadNamed(h: HostState, accountId: string, c: Conversation, env: TurnEnv)
    requires UploadsNamed(h.calls)
    ensures UploadsNamed(EnsureThread(h, accountId, c, env).0.calls)
  {
    if Truthy(c.threadId) {
      var h1 := h.(calls := h.calls + [RetrieveThread(c.threadId.value)]);
      NamedAppend(h.calls, RetrieveThread(c.threadId.value));
      NewThreadGrows(h1, accountId, c, env);
      NamedAppend(h1.calls, CreateThread);
    } else {
      NewThreadGrows(h, accountId, c, env);
      NamedAppend(h.calls, CreateThread);
    }
  }

  /** The upload step touches neither the store nor the run, and only appends to what it
      posts and calls. */
  lemma {:induction false} UploadAllFrame(h: HostState, contexts: seq<string>, outcomes: seq<Outcome<string>>, env: TurnEnv)
    requires |outcomes| == |contexts|
    ensures UploadAll(h, contexts, outcomes, env).0.accounts == h.accounts
    ensures Grows(h, UploadAll(h, contexts, outcomes, env).0)
    ensures h.calls <= UploadAll(h, contexts, outcomes, env).0.calls
    decreases |contexts|
  {
    if contexts != [] {
      var n := |contexts| - 1;
      var prior := UploadAll(h, contexts[..n], outcomes[..n], env).0;
      UploadAllFrame(h, contexts[..n], outcomes[..n], env);
      UploadContextFrame(prior, contexts[n], outcomes[n], env);
    }
  }

  /** One file context only posts messages and makes remote calls. */
  lemma UploadContextFrame(h: HostState, context: string, outcome: Outcome<string>, env: TurnEnv)
    ensures var r := UploadContext(h, context, outcome, env).0;
      r.accounts == h.accounts && r.currentRun == h.currentRun && r.active == h.active
      && h.sent <= r.sent && h.calls <= r.calls
  {
  }

  /** The catch block reports the conversation with the error notice, stores it for a known
      account, and switches the typing indicator off last. */
  lemma CatchPathStores(h: HostState, p: ChatPayload, ids: TurnIds, c: Conversation, reason: string)
    ensures CatchPath(h, p, ids, c, reason).report
      == Failed(c.(messages := c.messages + [SystemMessage(ids.errorId, reason, ids.errorTime, p.modelName, p.assistantName)]), reason)
    ensures Grows(h, CatchPath(h, p, ids, c, reason).host)
    ensures CatchPath(h, p, ids, c, reason).host.calls == h.calls
    ensures |CatchPath(h, p, ids, c, reason).host.sent| > |h.sent|
    ensures CatchPath(h, p, ids, c, reason).host.sent[|CatchPath(h, p, ids, c, reason).host.sent| - 1] == UpdateTypingStatus(false)
    ensures KnownAccount(h.accounts, p.accountId) ==>
      var r := CatchPath(h, p, ids, c, reason);
      var i := FindAccountIndex(r.host.accounts, p.accountId);
      0 <= i && Holds(r.host.accounts[i], r.report.conversation)
  {
    var failed := c.(messages := c.messages + [SystemMessage(ids.errorId, reason, ids.errorTime, p.modelName, p.assistantName)]);
    PersistGrows(h, p.accountId, failed);
    if KnownAccount(h.accounts, p.accountId) {
      PersistStores(h, p.accountId, failed);
    }
  }

  /** A turn never adds, removes or reorders stored accounts, and only appends to what it
      posts. */
  lemma TurnKeepsAccounts(h: HostState, p: ChatPayload, env: TurnEnv, ids: TurnIds)
    requires |env.uploads| == |p.fileContexts|
    ensures SameAccountIds(h.accounts, ChatMessageTurn(h, p, env, ids).host.accounts)
    ensures h.sent <= ChatMessageTurn(h, p, env, ids).host.sent
  {
    if h.clientReady {
      var c := Looked(h, p, ids);
      var probed := Probe(h, p.accountId, c, env);
      ProbeGrows(h, p.accountId, c, env);
      if probed.1.Some? {
        TryBlockOutcome(h, probed.0, p, env, ids, probed.1.value);
      }
    }
  }

  /** How a turn that reached its try block ends: started on the conversation with the user
      message, or failed with an error notice added, stored and the typing indicator off. */
  predicate Outcome(h0: HostState, h: HostState, t: Turn, p: ChatPayload, ids: TurnIds, c: Conversation) {
    && SameAccountIds(h0.accounts, t.host.accounts)
    && h0.sent <= t.host.sent
    && (t.report.Started? || t.report.Failed?)
    && (t.report.Started? ==>
          && |t.host.calls| > 0
          && t.report.conversation == c.(threadId := t.report.conversation.threadId)
          && t.report.conversation.threadId.Some?
          && t.host.currentRun == Some(Run(t.report.conversation.threadId.value, false))
          && t.host.active == Some(ActiveTurn(p.accountId, t.report.conversation, Placeholder(p, ids)))
          && t.host.calls[|t.host.calls| - 1] == StreamRun(t.report.conversation.threadId.value, p.assistantId, p.modelId))
    && (t.report.Failed? ==>
          && t.report.conversation == c.(messages := c.messages + [SystemMessage(ids.errorId, t.report.reason, ids.errorTime, p.modelName, p.assistantName)],
                                         threadId := t.report.conversation.threadId)
          && t.host.currentRun == h.currentRun && t.host.active == h.active
          && |t.host.sent| > 0 && t.host.sent[|t.host.sent| - 1] == UpdateTypingStatus(false)
          && (KnownAccount(h0.accounts, p.accountId) ==>
                var i := FindAccountIndex(t.host.accounts, p.accountId);
                0 <= i && Holds(t.host.accounts[i], t.report.conversation)))
  }

  lemma CatchPathOutcome(h0: HostState, h: HostState, p: ChatPayload, ids: TurnIds, c: Conversation, reason: string)
    requires SameAccountIds(h0.accounts, h.accounts) && h0.sent <= h.sent
    ensures Outcome(h0, h, CatchPath(h, p, ids, c, reason), p, ids, c)
  {
    CatchPathStores(h, p, ids, c, reason);
    if KnownAccount(h0.accounts, p.accountId) {
      var j :| 0 <= j < |h0.accounts| && h0.accounts[j].id == p.accountId;
      assert h.accounts[j].id == p.accountId;
    }
  }

  lemma SubmitOutcome(h0: HostState, h: HostState, p: ChatPayload, env: TurnEnv, ids: TurnIds, c: Conversation)
    requires |env.uploads| == |p.fileContexts| && c.threadId.Some?
    requires SameAccountIds(h0.accounts, h.accounts) && h0.sent <= h.sent
    ensures Outcome(h0, h, Submit(h, p, env, ids, c), p, ids, c)
  {
    var uploaded := UploadAll(h, p.fileContexts, env.uploads, env);
    UploadAllFrame(h, p.fileContexts, env.uploads, env);
    match AllUploaded(uploaded.1) {
      case Fail(m) =>
        CatchPathOutcome(h0, uploaded.0, p, ids, c, m);
      case Ok(fileIds) =>
        var h2 := uploaded.0.(calls := uploaded.0.calls + [CreateThreadMessage(c.threadId.value, SubmitContent(p), fileIds)]);
        if env.messageError.Some? {
          CatchPathOutcome(h0, h2, p, ids, c, env.messageError.value);
        }
    }
  }

  /** The try block, from the state after the conversation lookup. */
  lemma TryBlockOutcome(h0: HostState, h: HostState, p: ChatPayload, env: TurnEnv, ids: TurnIds, c: Conversation)
    requires |env.uploads| == |p.fileContexts|
    requires SameAccountIds(h0.accounts, h.accounts) && h0.sent <= h.sent
    ensures Outcome(h0, h, TryBlock(h, p, env, ids, c), p, ids,
                    c.(messages := c.messages + [UserMessage(p, ids)], lastMessage := p.message))
  {
    var withUser := c.(messages := c.messages + [UserMessage(p, ids)], lastMessage := p.message);
    var h1 := h.(sent := h.sent + [UpdateTypingStatus(true), UpdateConversation(withUser, None)]);
    var threaded := EnsureThread(h1, p.accountId, withUser, env);
    EnsureThreadGrows(h1, p.accountId, withUser, env);
    match threaded.1 {
      case Fail(m) =>
        CatchPathOutcome(h0, threaded.0, p, ids, withUser, m);
      case Ok(c2) =>
        SubmitOutcome(h0, threaded.0, p, env, ids, c2);
    }
  }

  /** Without a client the turn only posts the "not initialized" error; with one it never
      ends that way. */
  lemma TurnWithoutClient(h: HostState, p: ChatPayload, env: TurnEnv, ids: TurnIds)
    requires |env.uploads| == |p.fileContexts|
    ensures var t := ChatMessageTurn(h, p, env, ids);
      && (t.report == NoClient <==> !h.clientReady)
      && (!h.clientReady ==> t.host == h.(sent := h.sent + [ErrorMessage(NO_CLIENT)]))
  {
    if h.clientReady {
      var c := Looked(h, p, ids);
      var probed := Probe(h, p.accountId, c, env);
      if probed.1.Some? {
        TryBlockOutcome(probed.0, probed.0, p, env, ids, probed.1.value);
      }
    }
  }

  /** A started turn runs on a thread of its conversation: the user message is the
      conversation's last message, the run is recorded as current and not aborted, and the
      stream callbacks work on the conversation and a fresh empty assistant placeholder. */
  lemma TurnStarted(h: HostState, p: ChatPayload, env: TurnEnv, ids: TurnIds)
    requires |env.uploads| == |p.fileContexts|
    ensures var t := ChatMessageTurn(h, p, env, ids);
      t.report.Started? ==>
        var c0 := Looked(h, p, ids);
        var c := t.report.conversation;
        && c.id == p.conversationId
        && c == c0.(messages := c0.messages + [UserMessage(p, ids)], lastMessage := p.message, threadId := c.threadId)
        && c.threadId.Some?
        && t.host.currentRun == Some(Run(c.threadId.value, false))
        && t.host.active == Some(ActiveTurn(p.accountId, c, Placeholder(p, ids)))
        && t.host.calls[|t.host.calls| - 1] == StreamRun(c.threadId.value, p.assistantId, p.modelId)
  {
    var t := ChatMessageTurn(h, p, env, ids);
    if t.report.Started? {
      var c0 := Looked(h, p, ids);
      LookupConversationSpec(h.accounts, p.accountId, p.conversationId, ids.today);
      var probed := Probe(h, p.accountId, c0, env);
      ProbeGrows(h, p.accountId, c0, env);
      TryBlockOutcome(probed.0, probed.0, p, env, ids, probed.1.value);
    }
  }

  /** A failed turn adds the user message and one error notice with the reason to the
      conversation, stores it for a known account, leaves the current run and the stream's
      turn as they were, and switches the typing indicator off last. */
  lemma TurnFailed(h: HostState, p: ChatPayload, env: TurnEnv, ids: TurnIds)
    requires |env.uploads| == |p.fileContexts|
    ensures var t := ChatMessageTurn(h, p, env, ids);
      t.report.Failed? ==>
        var c0 := Looked(h, p, ids);
        var c := t.report.conversation;
        && c.id == p.conversationId
        && c.messages == c0.messages + [UserMessage(p, ids), SystemMessage(ids.errorId, t.report.reason, ids.errorTime, p.modelName, p.assistantName)]
        && IsErrorNotice(c.messages[|c.messages| - 1])
        && c.lastMessage == p.message
        && t.host.currentRun == h.currentRun && t.host.active == h.active
        && t.host.sent[|t.host.sent| - 1] == UpdateTypingStatus(false)
        && (KnownAccount(h.accounts, p.accountId) ==>
              var i := FindAccountIndex(t.host.accounts, p.accountId);
              0 <= i && Holds(t.host.accounts[i], c))
  {
    var t := ChatMessageTurn(h, p, env, ids);
    if t.report.Failed? {
      var c0 := Looked(h, p, ids);
      LookupConversationSpec(h.accounts, p.accountId, p.conversationId, ids.today);
      var probed := Probe(h, p.accountId, c0, env);
      ProbeGrows(h, p.accountId, c0, env);
      var c1 := probed.1.value;
      assert t == TryBlock(probed.0, p, env, ids, c1);
      TryBlockOutcome(h, probed.0, p, env, ids, c1);
      var sys := SystemMessage(ids.errorId, t.report.reason, ids.errorTime, p.modelName, p.assistantName);
      assert t.report.conversation.messages == (c1.messages + [UserMessage(p, ids)]) + [sys];
      assert (c0.messages + [UserMessage(p, ids)]) + [sys] == c0.messages + [UserMessage(p, ids), sys];
      assert StartsWith(sys.content, "Error: ");
    }
  }

  /** A live thread is kept: when the conversation's thread is retrieved both times, the run
      starts on it and no thread is created. */
  lemma TurnKeepsLiveThread(h: HostState, p: ChatPayload, env: TurnEnv, ids: TurnIds)
    requires |env.uploads| == |p.fileContexts|
    requires Truthy(Looked(h, p, ids).threadId) && env.probeRetrieveOk && env.retrieveOk
    ensures var t := ChatMessageTurn(h, p, env, ids);
      t.report.Started? ==> t.report.conversation.threadId == Looked(h, p, ids).threadId
  {
    TurnStarted(h, p, env, ids);
  }

  /** A conversation without a thread runs on the thread created for it. */
  lemma TurnCreatesThread(h: HostState, p: ChatPayload, env: TurnEnv, ids: TurnIds)
    requires |env.uploads| == |p.fileContexts|
    requires !Truthy(Looked(h, p, ids).threadId)
    ensures var t := ChatMessageTurn(h, p, env, ids);
      t.report.Started? ==> env.newThread.Ok? && t.report.conversation.threadId == Some(env.newThread.value)
  {
    TurnStarted(h, p, env, ids);
  }

  /** A thread lost since the last turn is replaced by the one the lookup creates. */
  lemma TurnReplacesLostThread(h: HostState, p: ChatPayload, env: TurnEnv, ids: TurnIds)
    requires |env.uploads| == |p.fileContexts|
    requires Truthy(Looked(h, p, ids).threadId) && !env.probeRetrieveOk && env.retrieveOk
    ensures var t := ChatMessageTurn(h, p, env, ids);
      && (t.report == ThreadLost <==> h.clientReady && env.probeThread.Fail?)
      && (t.report.Started? ==> env.probeThread.Ok?)
      && (t.report.Started? && env.probeThread.value != "" ==> t.report.conversation.threadId == Some(env.probeThread.value))
  {
    if h.clientReady {
      var c0 := Looked(h, p, ids);
      var probed := Probe(h, p.accountId, c0, env);
      ProbeGrows(h, p.accountId, c0, env);
      ProbeReplaces(h, p.accountId, c0, env);
      if probed.1.Some? {
        assert ChatMessageTurn(h, p, env, ids) == TryBlock(probed.0, p, env, ids, probed.1.value);
        TryBlockOutcome(probed.0, probed.0, p, env, ids, probed.1.value);
        if env.probeThread.value != "" {
          TryBlockKeepsThread(probed.0, p, env, ids, probed.1.value);
        }
      } else {
        assert ChatMessageTurn(h, p, env, ids).report == ThreadLost;
      }
    }
  }

  /** A lost thread is replaced by the one created for it. */
  lemma ProbeReplaces(h: HostState, accountId: string, c: Conversation, env: TurnEnv)
    requires Truthy(c.threadId) && h.clientReady && !env.probeRetrieveOk
    ensures Probe(h, accountId, c, env).1.Some? <==> env.probeThread.Ok?
    ensures Probe(h, accountId, c, env).1.Some? ==>
      Probe(h, accountId, c, env).1.value.threadId == Some(env.probeThread.value)
  {
  }

  /** A thread that is retrieved is the one the run starts on. */
  lemma TryBlockKeepsThread(h: HostState, p: ChatPayload, env: TurnEnv, ids: TurnIds, c: Conversation)
    requires |env.uploads| == |p.fileContexts|
    requires Truthy(c.threadId) && env.retrieveOk
    ensures TryBlock(h, p, env, ids, c).report.Started? ==> TryBlock(h, p, env, ids, c).report.conversation.threadId == c.threadId
  {
    var withUser := c.(messages := c.messages + [UserMessage(p, ids)], lastMessage := p.message);
    var h1 := h.(sent := h.sent + [UpdateTypingStatus(true), UpdateConversation(withUser, None)]);
    SubmitStarted(EnsureThread(h1, p.accountId, withUser, env).0, p, env, ids, withUser);
  }

  /** A started submission reports the conversation it was given. */
  lemma SubmitStarted(h: HostState, p: ChatPayload, env: TurnEnv, ids: TurnIds, c: Conversation)
    requires |env.uploads| == |p.fileContexts| && c.threadId.Some?
    ensures Submit(h, p, env, ids, c).report.Started? ==> Submit(h, p, env, ids, c).report == Started(c)
  {
  }

  /** The submission keeps the file naming rule in the calls it makes. */
  lemma SubmitNamed(h: HostState, p: ChatPayload, env: TurnEnv, ids: TurnIds, c: Conversation)
    requires |env.uploads| == |p.fileContexts| && c.threadId.Some? && UploadsNamed(h.calls)
    ensures UploadsNamed(Submit(h, p, env, ids, c).host.calls)
  {
    var uploaded := UploadAll(h, p.fileContexts, env.uploads, env);
    UploadAllNamed(h, p.fileContexts, env.uploads, env);
    match AllUploaded(uploaded.1) {
      case Fail(m) =>
        CatchPathStores(uploaded.0, p, ids, c, m);
      case Ok(fileIds) =>
        var call := CreateThreadMessage(c.threadId.value, SubmitContent(p), fileIds);
        var h2 := uploaded.0.(calls := uploaded.0.calls + [call]);
        NamedAppend(uploaded.0.calls, call);
        if env.messageError.Some? {
          CatchPathStores(h2, p, ids, c, env.messageError.value);
        } else {
          NamedAppend(h2.calls, StreamRun(c.threadId.value, p.assistantId, p.modelId));
        }
    }
  }

  lemma TryBlockNamed(h: HostState, p: ChatPayload, env: TurnEnv, ids: TurnIds, c: Conversation)
    requires |env.uploads| == |p.fileContexts| && UploadsNamed(h.calls)
    ensures UploadsNamed(TryBlock(h, p, env, ids, c).host.calls)
  {
    var withUser := c.(messages := c.messages + [UserMessage(p, ids)], lastMessage := p.message);
    var h1 := h.(sent := h.sent + [UpdateTypingStatus(true), UpdateConversation(withUser, None)]);
    var threaded := EnsureThread(h1, p.accountId, withUser, env);
    EnsureThreadNamed(h1, p.accountId, withUser, env);
    match threaded.1 {
      case Fail(m) =>
        CatchPathStores(threaded.0, p, ids, withUser, m);
      case Ok(c2) =>
        SubmitNamed(threaded.0, p, env, ids, c2);
    }
  }

  /** A turn uploads every file under the name the retagging rule gives its path. */
  lemma TurnUploadsNamed(h: HostState, p: ChatPayload, env: TurnEnv, ids: TurnIds)
    requires |env.uploads| == |p.fileContexts| && UploadsNamed(h.calls)
    ensures UploadsNamed(ChatMessageTurn(h, p, env, ids).host.calls)
  {
    if h.clientReady {
      var c := Looked(h, p, ids);
      var probed := Probe(h, p.accountId, c, env);
      ProbeNamed(h, p.accountId, c, env);
      if probed.1.Some? {
        TryBlockNamed(probed.0, p, env, ids, probed.1.value);
      }
    }
  }
}
