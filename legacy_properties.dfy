/** What the first versions of the account manager and the message handler guarantee, and
    where they differ from the current ones: an append where the current manager replaces, an
    index-based update where the current handler merges through a map. */
module LegacyProperties {
  import opened Types
  import opened AccountStore
  import opened ConversationMerge
  import opened LegacyAccounts
  import opened LegacyEventHandler
  import opened Text

  // ---------------------------------------------------------------- the older manager

  lemma {:induction false} CountIdPositive(entries: seq<LegacyEntry>, id: string)
    ensures CountId(entries, id) > 0 <==> exists j :: 0 <= j < |entries| && entries[j].id == id
    decreases |entries|
  {
    if entries != [] {
      var p := entries[..|entries| - 1];
      CountIdPositive(p, id);
      if exists j :: 0 <= j < |entries| && entries[j].id == id {
        var j :| 0 <= j < |entries| && entries[j].id == id;
        if j < |p| {
          assert p[j] == entries[j];
        }
      }
      assert forall j :: 0 <= j < |p| ==> p[j] == entries[j];
    }
  }

  /** Storing appends an entry for the id whether or not it has one: the count of its entries
      grows by one, so storing an id that is already present leaves two entries with it. */
  lemma StoreAppends(entries: seq<LegacyEntry>, id: string, name: string)
    ensures var r := entries + [InfoOf(id, name)];
      && |r| == |entries| + 1
      && CountId(r, id) == CountId(entries, id) + 1
      && ((exists j :: 0 <= j < |entries| && entries[j].id == id) ==> !UniqueEntryIds(r))
  {
    var r := entries + [InfoOf(id, name)];
    assert r[..|r| - 1] == entries;
    if exists j :: 0 <= j < |entries| && entries[j].id == id {
      var j :| 0 <= j < |entries| && entries[j].id == id;
      assert r[j].id == r[|entries|].id;
    }
  }

  /** The current manager, storing an id it has, keeps the number of accounts; the older one
      adds an entry. */
  lemma StoreContrast(accounts: seq<Account>, account: Account, entries: seq<LegacyEntry>)
    requires exists j :: 0 <= j < |accounts| && accounts[j].id == account.id
    ensures |Upsert(accounts, Record(account))| == |accounts|
    ensures |entries + [InfoOf(account.id, account.name)]| == |entries| + 1
  {
    var j :| 0 <= j < |accounts| && accounts[j].id == account.id;
    assert FindAccountIndex(accounts, account.id) >= 0;
  }

  /** The filter keeps the other entries in their order. */
  lemma {:induction false} WithoutIdDistributes(a: seq<LegacyEntry>, b: seq<LegacyEntry>, id: string)
    ensures WithoutId(a + b, id) == WithoutId(a, id) + WithoutId(b, id)
    decreases |a|
  {
    if a == [] {
      assert a + b == b;
    } else {
      assert (a + b)[1..] == a[1..] + b;
      WithoutIdDistributes(a[1..], b, id);
      assert WithoutId(a + b, id) == (if a[0].id != id then [a[0]] else []) + WithoutId(a[1..] + b, id);
    }
  }

  /** After `deleteAccount` no entry has the id, and the other entries are kept. */
  lemma DeleteRemovesEveryEntry(entries: seq<LegacyEntry>, id: string)
    ensures CountId(WithoutId(entries, id), id) == 0
    ensures forall e :: e in entries && e.id != id ==> e in WithoutId(entries, id)
  {
    var r := WithoutId(entries, id);
    CountIdPositive(r, id);
    assert forall j :: 0 <= j < |r| ==> r[j] in r;
  }

  /** A delete undoes every store of the id, however many there were. */
  lemma DeleteUndoesStore(entries: seq<LegacyEntry>, id: string, name: string)
    ensures WithoutId(entries + [InfoOf(id, name)], id) == WithoutId(entries, id)
  {
    WithoutIdDistributes(entries, [InfoOf(id, name)], id);
    assert WithoutId([InfoOf(id, name)], id) == [];
  }

  // ---------------------------------------------------------------- lookups and updates

  /** `getConversation` returns a conversation with the requested id: the entry's one when it
      has it, otherwise one named "Conversation <id>" with no messages and no thread. */
  lemma LookupSpec(entries: seq<LegacyEntry>, accountId: string, conversationId: string, today: string)
    ensures var c := LegacyLookup(entries, accountId, conversationId, today);
      var i := FindEntryIndex(entries, accountId);
      && c.id == conversationId
      && (i >= 0 && entries[i].conversations.Some? && HasConversation(entries[i].conversations.value, conversationId)
          ==> c in entries[i].conversations.value)
      && (i == -1 || entries[i].conversations.None? || !HasConversation(entries[i].conversations.value, conversationId)
          ==> c == Conversation(conversationId, "Conversation " + conversationId, today, [], "", None))
  {
    var i := FindEntryIndex(entries, accountId);
    if i >= 0 && entries[i].conversations.Some? {
      var cs := entries[i].conversations.value;
      if HasConversation(cs, conversationId) {
        assert cs[FindConversationIndex(cs, conversationId)] in cs;
      }
    }
  }

  /** `updateConversation` stores nothing for an unknown account or an entry without a
      conversation list. Otherwise the entry's first conversation with the id is replaced,
      or the conversation appended, every other conversation and entry stays where it was,
      and the entry's id and name are appended to the list. */
  lemma UpdateOutcomeSpec(entries: seq<LegacyEntry>, accountId: string, c: Conversation)
    ensures var i := FindEntryIndex(entries, accountId);
      var w := UpdateOutcome(entries, accountId, c);
      && (i == -1 <==> w.NoAccount?)
      && (i >= 0 && entries[i].conversations.None? <==> w.NoConversationList?)
      && (w.Stored? ==>
            var cs := entries[i].conversations.value;
            var k := FindConversationIndex(cs, c.id);
            var cs' := w.entries[i].conversations.value;
            && |w.entries| == |entries| + 1
            && w.entries[|entries|] == LegacyEntry(accountId, entries[i].name, None)
            && (forall j :: 0 <= j < |entries| && j != i ==> w.entries[j] == entries[j])
            && w.entries[i].id == accountId && w.entries[i].name == entries[i].name
            && (k >= 0 ==> |cs'| == |cs| && cs'[k] == c && forall j :: 0 <= j < |cs| && j != k ==> cs'[j] == cs[j])
            && (k == -1 ==> cs' == cs + [c]))
  {
  }

  /** A stored update leaves the edited entry first for its id, so the next update edits the
      same entry, and adds one entry for the account every time. */
  lemma RepeatedUpdatesGrowList(entries: seq<LegacyEntry>, accountId: string, c: Conversation, d: Conversation)
    requires UpdateOutcome(entries, accountId, c).Stored?
    ensures var r := UpdateOutcome(entries, accountId, c).entries;
      && FindEntryIndex(r, accountId) == FindEntryIndex(entries, accountId)
      && UpdateOutcome(r, accountId, d).Stored?
      && CountId(UpdateOutcome(r, accountId, d).entries, accountId) == CountId(entries, accountId) + 2
  {
    var i := FindEntryIndex(entries, accountId);
    var r := UpdateOutcome(entries, accountId, c).entries;
    FindEntryIndexOfEdit(entries, i, r[i].conversations.value, accountId);
    var r2 := UpdateOutcome(r, accountId, d).entries;
    CountIdOfEdit(entries, i, r[i].conversations.value, accountId);
    CountIdOfEdit(r, i, r2[i].conversations.value, accountId);
  }

  /** Editing an entry's conversations does not move it for the lookup by id. */
  lemma FindEntryIndexOfEdit(entries: seq<LegacyEntry>, i: int, cs: seq<Conversation>, id: string)
    requires 0 <= i < |entries| && FindEntryIndex(entries, id) == i
    ensures FindEntryIndex(EditAndStore(entries, i, cs), id) == i
  {
    var r := EditAndStore(entries, i, cs);
    var k := FindEntryIndex(r, id);
    assert r[i].id == id;
    assert forall j :: 0 <= j < i ==> r[j] == entries[j];
  }

  lemma {:induction false} CountIdOfEdit(entries: seq<LegacyEntry>, i: int, cs: seq<Conversation>, id: string)
    requires 0 <= i < |entries| && entries[i].id == id
    ensures CountId(EditAndStore(entries, i, cs), id) == CountId(entries, id) + 1
  {
    var edited := entries[i := entries[i].(conversations := Some(cs))];
    var r := EditAndStore(entries, i, cs);
    assert r[..|r| - 1] == edited;
    CountIdSameIds(entries, edited, id);
  }

  /** Two lists whose entries have the same ids, position by position, have the same count. */
  lemma {:induction false} CountIdSameIds(a: seq<LegacyEntry>, b: seq<LegacyEntry>, id: string)
    requires |a| == |b| && forall j :: 0 <= j < |a| ==> a[j].id == b[j].id
    ensures CountId(a, id) == CountId(b, id)
    decreases |a|
  {
    if a != [] {
      CountIdSameIds(a[..|a| - 1], b[..|b| - 1], id);
    }
  }

  /** On a conversation list without repeated ids the index-based update agrees with the
      current, map-based merge. */
  lemma IndexUpsertAgreesOnUniqueIds(cs: seq<Conversation>, c: Conversation)
    requires UniqueConversationIds(cs)
    ensures SetById(cs, c) == Merge(cs, c)
  {
    MergeKeepsPosition(cs, c);
  }

  /** With a repeated id they differ: the index-based update keeps the second conversation
      with the id, the merge keeps one. */
  lemma IndexUpsertKeepsDuplicates(a: Conversation, b: Conversation, c: Conversation)
    requires a.id == b.id == c.id
    ensures SetById([a, b], c) == [c, b]
    ensures Merge([a, b], c) == [c]
  {
    assert [a, b][..1] == [a];
    assert MapOf([a]) == [a];
    assert MapOf([a, b]) == [b];
  }

  /** `deleteConversation` drops every conversation with the id from the entry and keeps the
      others in their order; it is posted exactly when something was stored. */
  lemma DeleteOutcomeSpec(entries: seq<LegacyEntry>, accountId: string, conversationId: string)
    ensures var i := FindEntryIndex(entries, accountId);
      var w := DeleteOutcome(entries, accountId, conversationId);
      && (i == -1 <==> w.NoAccount?)
      && (i >= 0 && entries[i].conversations.None? <==> w.NoConversationList?)
      && (w.Stored? ==>
            var cs := entries[i].conversations.value;
            var cs' := w.entries[i].conversations.value;
            && |w.entries| == |entries| + 1
            && !HasConversation(cs', conversationId)
            && (forall x :: x in cs' <==> x in cs && x.id != conversationId)
            && (UniqueConversationIds(cs) ==> UniqueConversationIds(cs')))
  {
    var i := FindEntryIndex(entries, accountId);
    var w := DeleteOutcome(entries, accountId, conversationId);
    if w.Stored? {
      var cs := entries[i].conversations.value;
      var cs' := w.entries[i].conversations.value;
      assert forall j :: 0 <= j < |cs'| ==> cs'[j] in cs';
      if UniqueConversationIds(cs) {
        WithoutConversationUnique(cs, conversationId);
      }
    }
  }

  lemma {:induction false} WithoutConversationUnique(cs: seq<Conversation>, id: string)
    requires UniqueConversationIds(cs)
    ensures UniqueConversationIds(WithoutConversation(cs, id))
    decreases |cs|
  {
    if cs != [] {
      var rest := WithoutConversation(cs[1..], id);
      WithoutConversationUnique(cs[1..], id);
      assert forall j :: 0 <= j < |rest| ==> rest[j] in rest;
      assert forall x :: x in cs[1..] ==> x.id != cs[0].id;
    }
  }

  // ---------------------------------------------------------------- a chat turn

  lemma {:induction false} ThreadMessagesSpec(ms: seq<Message>)
    ensures |ThreadMessages(ms)| == |ms|
    ensures forall i :: 0 <= i < |ms| ==> ThreadMessages(ms)[i] == ThreadMessage(ms[i].sender, ms[i].content)
    decreases |ms|
  {
    if ms != [] {
      ThreadMessagesSpec(ms[1..]);
    }
  }

  /** The thread is seeded with every message of the conversation in order, each with its
      sender as role, ending with the user's new message. */
  lemma ThreadSeeding(entries: seq<LegacyEntry>, req: ChatRequest, env: TurnInputs)
    ensures var old_ := LegacyLookup(entries, req.accountId, req.conversationId, env.today).messages;
      var t := ThreadMessages(UserConversation(entries, req, env).messages);
      && |t| == |old_| + 1
      && (forall i :: 0 <= i < |old_| ==> t[i] == ThreadMessage(old_[i].sender, old_[i].content))
      && t[|old_|] == ThreadMessage(Some(FromUser), req.message)
  {
    ThreadMessagesSpec(UserConversation(entries, req, env).messages);
  }

  /** When the turn succeeds, the last post is the conversation with exactly one message
      more than the user's: the assistant's reply, which is also the last message. */
  lemma ReplySpec(entries: seq<LegacyEntry>, req: ChatRequest, env: TurnInputs, outcome: RunOutcome)
    requires outcome.Replied? && !ChatWrite(entries, req, env, outcome).NoConversationList?
    ensures var user := UserConversation(entries, req, env);
      var posts := ChatPosts(entries, req, env, outcome);
      && |posts| == 4
      && posts[2] == TypingStatusPost(false)
      && posts[3].ConversationPost?
      && var c := posts[3].conversation;
      && c.messages[..|c.messages| - 1] == user.messages
      && c.messages[|c.messages| - 1].sender == Some(FromAssistant)
      && c.messages[|c.messages| - 1].content == outcome.text
      && c.lastMessage == outcome.text
      && c.id == req.conversationId
  {
    LookupSpec(entries, req.accountId, req.conversationId, env.today);
    var c := ReplyConversation(UserConversation(entries, req, env), outcome.messageId, outcome.text, env);
    assert c.messages[..|c.messages| - 1] == UserConversation(entries, req, env).messages;
  }

  /** When the service calls fail or the write-back throws, no write-back stores anything,
      and the error is posted and typing switched off after the user's conversation. A
      conversation found stored still keeps the user's message: in the held list it is the
      user's conversation where it stood, every other entry is as it was, and the next
      lookup of it returns the user's conversation. */
  lemma FailureSpec(entries: seq<LegacyEntry>, req: ChatRequest, env: TurnInputs, outcome: RunOutcome)
    requires outcome.RunFailed? || ChatWrite(entries, req, env, outcome).NoConversationList?
    ensures !ChatWrite(entries, req, env, outcome).Stored?
    ensures ChatPosts(entries, req, env, outcome)
      == [TypingStatusPost(true), ConversationPost(UserConversation(entries, req, env)), ErrorPost(CHAT_FAILED), TypingStatusPost(false)]
    ensures Held(entries, req.accountId, req.conversationId) ==>
      var r := HeldEdit(entries, req, env);
      var i := FindEntryIndex(entries, req.accountId);
      && |r| == |entries|
      && (forall j :: 0 <= j < |entries| && j != i ==> r[j] == entries[j])
      && r[i].id == entries[i].id && r[i].name == entries[i].name
      && (forall today :: LegacyLookup(r, req.accountId, req.conversationId, today) == UserConversation(entries, req, env))
  {
    if Held(entries, req.accountId, req.conversationId) {
      HeldEditSeen(entries, req, env);
    }
  }

  lemma HeldEditSeen(entries: seq<LegacyEntry>, req: ChatRequest, env: TurnInputs)
    requires Held(entries, req.accountId, req.conversationId)
    ensures forall today ::
              LegacyLookup(HeldEdit(entries, req, env), req.accountId, req.conversationId, today) == UserConversation(entries, req, env)
  {
    var i := FindEntryIndex(entries, req.accountId);
    var cs := entries[i].conversations.value;
    var k := FindConversationIndex(cs, req.conversationId);
    var u := UserConversation(entries, req, env);
    var r := HeldEdit(entries, req, env);
    LookupId(entries, req.accountId, req.conversationId, env.today);
    FindEntryIndexOfSet(entries, i, r[i], req.accountId);
    FindConversationIndexOfSet(cs, k, u);
  }

  /** After a failed run on a stored conversation, the next turn on it seeds its thread with
      the failed turn's message again, before its own. */
  lemma FailedMessageResent(entries: seq<LegacyEntry>, req: ChatRequest, env: TurnInputs, next: ChatRequest, env': TurnInputs)
    requires Held(entries, req.accountId, req.conversationId)
    requires next.accountId == req.accountId && next.conversationId == req.conversationId
    ensures var before := LegacyLookup(entries, req.accountId, req.conversationId, env.today).messages;
      var t := ThreadMessages(UserConversation(HeldEdit(entries, req, env), next, env').messages);
      && |t| == |before| + 2
      && (forall j :: 0 <= j < |before| ==> t[j] == ThreadMessage(before[j].sender, before[j].content))
      && t[|before|] == ThreadMessage(Some(FromUser), req.message)
      && t[|before| + 1] == ThreadMessage(Some(FromUser), next.message)
  {
    HeldEditSeen(entries, req, env);
    ThreadMessagesSpec(UserConversation(HeldEdit(entries, req, env), next, env').messages);
  }

  /** Every turn switches typing on first and off again. */
  lemma TypingEnds(entries: seq<LegacyEntry>, req: ChatRequest, env: TurnInputs, outcome: RunOutcome)
    ensures var posts := ChatPosts(entries, req, env, outcome);
      posts[0] == TypingStatusPost(true) && TypingStatusPost(false) in posts[2..]
  {
    var posts := ChatPosts(entries, req, env, outcome);
    if outcome.RunFailed? || ChatWrite(entries, req, env, outcome).NoConversationList? {
      assert posts[2..][1] == TypingStatusPost(false);
    } else {
      assert posts[2..][0] == TypingStatusPost(false);
    }
  }

  /** A turn for an account whose entry the older manager wrote cannot be stored: the entry
      has no conversation list, so the reply never reaches the global state. */
  lemma OwnEntriesCannotHoldConversations(entries: seq<LegacyEntry>, req: ChatRequest, env: TurnInputs, outcome: RunOutcome, name: string)
    requires FindEntryIndex(entries, req.accountId) == -1
    requires outcome.Replied?
    ensures var stored := entries + [InfoOf(req.accountId, name)];
      ChatWrite(stored, req, env, outcome).NoConversationList?
  {
    var stored := entries + [InfoOf(req.accountId, name)];
    assert forall j :: 0 <= j < |entries| ==> stored[j] == entries[j];
    assert stored[|entries|].id == req.accountId;
  }

  /** The client set-up posts the models whose id starts with "gpt-", in their order. */
  lemma {:induction false} GptModelsSpec(models: seq<ModelInfo>)
    ensures |GptModels(models)| <= |models|
    ensures forall m :: m in GptModels(models) <==> m in models && StartsWith(m.id, "gpt-")
    decreases |models|
  {
    if models != [] {
      GptModelsSpec(models[1..]);
      assert models == [models[0]] + models[1..];
    }
  }
}
