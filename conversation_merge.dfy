/** How the extension host looks up, merges and deletes the conversations of an account.
    `updateConversation` rebuilds an account's list through a JavaScript `Map` keyed by
    conversation id; the insertion-ordered map is represented here by its value list, whose
    ids are unique. */
module ConversationMerge {
  import opened Types
  import opened AccountStore

  /** `findIndex(conv => conv.id === id)`. */
  function FindConversationIndex(cs: seq<Conversation>, id: string): (r: int)
    ensures -1 <= r < |cs|
    ensures r >= 0 ==> cs[r].id == id
    ensures forall j :: 0 <= j < |cs| && (r == -1 || j < r) ==> cs[j].id != id
  {
    FirstIndex(cs, (c: Conversation) => c.id, id)
  }

  predicate HasConversation(cs: seq<Conversation>, id: string) {
    exists j :: 0 <= j < |cs| && cs[j].id == id
  }

  /** Replace the first conversation with the id of `c` by `c`, or append `c`. This is
      `Map.prototype.set` on the value list of an insertion-ordered map, and also the
      index-based upsert of the older handler. */
  function SetById(cs: seq<Conversation>, c: Conversation): seq<Conversation> {
    var i := FindConversationIndex(cs, c.id);
    if i >= 0 then cs[i := c] else cs + [c]
  }

  /** `new Map(cs.map(conv => [conv.id, conv]))`: entries set one after another, so each id
      sits where it first occurred and holds its last conversation. */
  function MapOf(cs: seq<Conversation>): seq<Conversation> {
    if cs == [] then [] else SetById(MapOf(cs[..|cs| - 1]), cs[|cs| - 1])
  }

  /** The list `updateConversation` stores: the account's conversations through the map,
      then the passed conversation set on it. */
  function Merge(cs: seq<Conversation>, c: Conversation): seq<Conversation> {
    SetById(MapOf(cs), c)
  }

  /** The last conversation of `cs` with the id, if any. */
  function LastWithId(cs: seq<Conversation>, id: string): Option<Conversation> {
    if cs == [] then None
    else if cs[|cs| - 1].id == id then Some(cs[|cs| - 1])
    else LastWithId(cs[..|cs| - 1], id)
  }

  /** Setting an entry keeps ids unique; the set conversation is the one entry with its id,
      and the ids present are the old ones plus its id. */
  lemma SetByIdFacts(cs: seq<Conversation>, c: Conversation)
    requires UniqueConversationIds(cs)
    ensures var r := SetById(cs, c);
      && UniqueConversationIds(r)
      && (forall j :: 0 <= j < |r| && r[j].id == c.id ==> r[j] == c)
      && HasConversation(r, c.id)
      && (forall id :: HasConversation(r, id) <==> HasConversation(cs, id) || id == c.id)
      && (forall j :: 0 <= j < |r| && r[j].id != c.id ==> j < |cs| && r[j] == cs[j])
  {
    var r := SetById(cs, c);
    var i := FindConversationIndex(cs, c.id);
    forall id | HasConversation(cs, id) || id == c.id ensures HasConversation(r, id) {
      if id == c.id {
        assert r[if i >= 0 then i else |cs|].id == id;
      } else {
        var j :| 0 <= j < |cs| && cs[j].id == id;
        assert r[j].id == id;
      }
    }
    forall id | HasConversation(r, id) ensures HasConversation(cs, id) || id == c.id {
      var j :| 0 <= j < |r| && r[j].id == id;
      if id != c.id {
        assert cs[j].id == id;
      }
    }
  }

  /** The map's value list never holds two entries with one id. */
  lemma {:induction false} MapOfUnique(cs: seq<Conversation>)
    ensures UniqueConversationIds(MapOf(cs))
    ensures forall id :: HasConversation(MapOf(cs), id) <==> HasConversation(cs, id)
  {
    if cs != [] {
      var p := cs[..|cs| - 1];
      var x := cs[|cs| - 1];
      MapOfUnique(p);
      SetByIdFacts(MapOf(p), x);
      forall id ensures HasConversation(cs, id) <==> HasConversation(p, id) || id == x.id {
        if HasConversation(cs, id) && id != x.id {
          var j :| 0 <= j < |cs| && cs[j].id == id;
          assert p[j].id == id;
        }
        if HasConversation(p, id) {
          var j :| 0 <= j < |p| && p[j].id == id;
          assert cs[j].id == id;
        }
        if id == x.id {
          assert cs[|cs| - 1].id == id;
        }
      }
    }
  }

  /** A list that is already duplicate-free comes out of the map unchanged. */
  lemma {:induction false} MapOfIdentity(cs: seq<Conversation>)
    requires UniqueConversationIds(cs)
    ensures MapOf(cs) == cs
  {
    if cs != [] {
      var p := cs[..|cs| - 1];
      var x := cs[|cs| - 1];
      assert UniqueConversationIds(p);
      MapOfIdentity(p);
      assert forall j :: 0 <= j < |p| ==> p[j].id != x.id;
      assert FindConversationIndex(p, x.id) == -1;
      assert p + [x] == cs;
    }
  }

  /** For every id, the map holds the last conversation of the list with that id. */
  lemma {:induction false} MapOfLastWins(cs: seq<Conversation>, id: string)
    ensures forall j :: 0 <= j < |MapOf(cs)| && MapOf(cs)[j].id == id ==> LastWithId(cs, id) == Some(MapOf(cs)[j])
  {
    if cs != [] {
      var p := cs[..|cs| - 1];
      var x := cs[|cs| - 1];
      MapOfLastWins(p, id);
      MapOfUnique(p);
      SetByIdFacts(MapOf(p), x);
    }
  }

  /** Merge law: after `updateConversation` the account holds exactly one entry per
      conversation id, the passed conversation is the entry for its id, and no id is lost. */
  lemma MergeLaw(cs: seq<Conversation>, c: Conversation)
    ensures var r := Merge(cs, c);
      && UniqueConversationIds(r)
      && HasConversation(r, c.id)
      && (forall j :: 0 <= j < |r| && r[j].id == c.id ==> r[j] == c)
      && (forall id :: HasConversation(r, id) <==> HasConversation(cs, id) || id == c.id)
  {
    MapOfUnique(cs);
    SetByIdFacts(MapOf(cs), c);
  }

  /** Every other conversation of the merged list is the last one the account had with its id. */
  lemma MergeOthersLastWins(cs: seq<Conversation>, c: Conversation, j: int)
    requires 0 <= j < |Merge(cs, c)| && Merge(cs, c)[j].id != c.id
    ensures LastWithId(cs, Merge(cs, c)[j].id) == Some(Merge(cs, c)[j])
  {
    MapOfUnique(cs);
    SetByIdFacts(MapOf(cs), c);
    MapOfLastWins(cs, Merge(cs, c)[j].id);
  }

  /** On a duplicate-free list an existing id keeps its position and a new id goes last. */
  lemma MergeKeepsPosition(cs: seq<Conversation>, c: Conversation)
    requires UniqueConversationIds(cs)
    ensures var i := FindConversationIndex(cs, c.id);
      Merge(cs, c) == if i >= 0 then cs[i := c] else cs + [c]
  {
    MapOfIdentity(cs);
  }

  /** Merging the same conversation twice gives what merging it once gives. */
  lemma MergeIdempotent(cs: seq<Conversation>, c: Conversation)
    ensures Merge(Merge(cs, c), c) == Merge(cs, c)
  {
    var r := Merge(cs, c);
    MergeLaw(cs, c);
    MapOfIdentity(r);
    var i := FindConversationIndex(r, c.id);
    assert r[i] == c;
    assert r[i := c] == r;
  }

  /** `filter(conv => conv.id !== id)`. */
  function WithoutConversation(cs: seq<Conversation>, id: string): (r: seq<Conversation>)
    ensures |r| <= |cs|
    ensures forall c :: c in r <==> c in cs && c.id != id
  {
    if cs == [] then []
    else (if cs[0].id != id then [cs[0]] else []) + WithoutConversation(cs[1..], id)
  }

  /** Deleting keeps the other conversations in their order. */
  lemma {:induction false} WithoutConversationDistributes(a: seq<Conversation>, b: seq<Conversation>, id: string)
    ensures WithoutConversation(a + b, id) == WithoutConversation(a, id) + WithoutConversation(b, id)
  {
    if a == [] {
      assert a + b == b;
    } else {
      assert (a + b)[1..] == a[1..] + b;
      WithoutConversationDistributes(a[1..], b, id);
      assert WithoutConversation(a + b, id)
        == (if a[0].id != id then [a[0]] else []) + WithoutConversation(a[1..] + b, id);
    }
  }

  /** `find(conv => conv.id === id)`: the first conversation with the id. */
  function FindConversation(cs: seq<Conversation>, id: string): (r: Option<Conversation>)
    ensures r.Some? <==> HasConversation(cs, id)
    ensures r.Some? ==> r.value == cs[FindConversationIndex(cs, id)]
  {
    var i := FindConversationIndex(cs, id);
    if i >= 0 then Some(cs[i]) else None
  }

  /** The conversation `getConversation` makes up when the account has none with the id. */
  function DefaultConversation(id: string, today: string): (c: Conversation)
    ensures c.id == id && c.title == "Conversation " + id && c.date == today
    ensures c.messages == [] && c.lastMessage == "" && c.threadId == None
  {
    Conversation(id, "Conversation " + id, today, [], "", None)
  }

  /** `accounts.find(acc => acc.id === id)`. */
  function FindAccount(accounts: seq<Account>, id: string): (r: Option<Account>)
    ensures r.Some? ==> r.value in accounts && r.value.id == id
    ensures r.None? ==> forall a :: a in accounts ==> a.id != id
  {
    var i := FindAccountIndex(accounts, id);
    if i >= 0 then Some(accounts[i]) else None
  }

  /** The lookup part of `getConversation`: the stored conversation, or the default one. */
  function LookupConversation(accounts: seq<Account>, accountId: string, conversationId: string, today: string): Conversation {
    match FindAccount(accounts, accountId)
    case Some(account) =>
      (match FindConversation(account.conversations, conversationId)
       case Some(c) => c
       case None => DefaultConversation(conversationId, today))
    case None => DefaultConversation(conversationId, today)
  }

  /** The lookup returns a conversation with the requested id: the stored one when the
      account has it, otherwise the default. */
  lemma LookupConversationSpec(accounts: seq<Account>, accountId: string, conversationId: string, today: string)
    ensures var c := LookupConversation(accounts, accountId, conversationId, today);
      && c.id == conversationId
      && (FindAccount(accounts, accountId).Some? && HasConversation(FindAccount(accounts, accountId).value.conversations, conversationId)
          ==> c in FindAccount(accounts, accountId).value.conversations)
      && (FindAccount(accounts, accountId).None? || !HasConversation(FindAccount(accounts, accountId).value.conversations, conversationId)
          ==> c == DefaultConversation(conversationId, today))
  {
  }

  /** Where `new Map(accounts.map(acc => [acc.id, acc]))` takes its entry for the id from:
      the last account with the id, or -1. */
  function LastAccountIndex(accounts: seq<Account>, id: string): (r: int)
    ensures -1 <= r < |accounts|
    ensures r >= 0 ==> accounts[r].id == id
    ensures forall j :: 0 <= j < |accounts| && r < j ==> accounts[j].id != id
  {
    if accounts == [] then -1
    else if accounts[|accounts| - 1].id == id then |accounts| - 1
    else LastAccountIndex(accounts[..|accounts| - 1], id)
  }

  /** `new Map(accounts.map(acc => [acc.id, acc])).get(id)`: the last account with the id. */
  function LastAccountWithId(accounts: seq<Account>, id: string): (r: Option<Account>)
    ensures r.Some? ==> r.value in accounts && r.value.id == id
    ensures r.None? <==> forall j :: 0 <= j < |accounts| ==> accounts[j].id != id
  {
    var k := LastAccountIndex(accounts, id);
    if k >= 0 then Some(accounts[k]) else None
  }

  /** Replacing an entry by one with the same id moves no id's first occurrence. */
  lemma FindAccountIndexOfSet(accounts: seq<Account>, k: int, a: Account, id: string)
    requires 0 <= k < |accounts| && a.id == accounts[k].id
    ensures FindAccountIndex(accounts[k := a], id) == FindAccountIndex(accounts, id)
  {
    var i := FindAccountIndex(accounts, id);
    var i' := FindAccountIndex(accounts[k := a], id);
    if i >= 0 {
      assert accounts[k := a][i].id == id;
    }
    if i' >= 0 {
      assert accounts[i'].id == id;
    }
  }

  /** The account list `updateConversation` leaves in the store. The account the map returns
      is the stored object of the last entry with the id, so assigning its conversations edits
      that entry in place; `storeAccount` then reads the edited list and puts the key-free
      record of that entry at the first position with the id. An unknown account leaves the
      list as it was. */
  function UpdatedAccounts(accounts: seq<Account>, accountId: string, c: Conversation): seq<Account> {
    var k := LastAccountIndex(accounts, accountId);
    if k < 0 then accounts
    else
      var edited := accounts[k := accounts[k].(conversations := Merge(accounts[k].conversations, c))];
      Upsert(edited, Record(edited[k]))
  }

  /** An unknown account leaves the store as it is. */
  lemma UpdatedAccountsUnknown(accounts: seq<Account>, accountId: string, c: Conversation)
    requires forall j :: 0 <= j < |accounts| ==> accounts[j].id != accountId
    ensures UpdatedAccounts(accounts, accountId, c) == accounts
  {
  }

  /** For a known account the entry at its first position becomes the key-free record of its
      last entry, with merged conversations that hold `c` as the one entry with its id; the
      last entry, when it is another one, keeps its own fields but takes the same merged
      conversations; no other entry changes and no entry is added. */
  lemma UpdatedAccountsKnown(accounts: seq<Account>, accountId: string, c: Conversation)
    requires exists j :: 0 <= j < |accounts| && accounts[j].id == accountId
    ensures var r := UpdatedAccounts(accounts, accountId, c);
      var i := FindAccountIndex(accounts, accountId);
      var k := LastAccountIndex(accounts, accountId);
      && 0 <= i <= k && |r| == |accounts|
      && r[i] == Record(accounts[k].(conversations := r[i].conversations))
      && (i < k ==> r[k] == accounts[k].(conversations := r[i].conversations))
      && UniqueConversationIds(r[i].conversations)
      && (forall j :: 0 <= j < |r[i].conversations| && r[i].conversations[j].id == c.id ==> r[i].conversations[j] == c)
      && HasConversation(r[i].conversations, c.id)
      && (forall j :: 0 <= j < |accounts| && j != i && j != k ==> r[j] == accounts[j])
  {
    var k := LastAccountIndex(accounts, accountId);
    var merged := Merge(accounts[k].conversations, c);
    var edited := accounts[k := accounts[k].(conversations := merged)];
    MergeLaw(accounts[k].conversations, c);
    FindAccountIndexOfSet(accounts, k, edited[k], accountId);
    UpsertPlacesRecord(edited, Record(edited[k]));
  }

  /** The example of two entries with one id: after the update both of them hold the
      conversation, the first as a key-free record. */
  lemma UpdatedAccountsTwoEntries(first: Account, second: Account, c: Conversation)
    requires first.id == second.id && first.conversations == [] && second.conversations == []
    ensures UpdatedAccounts([first, second], first.id, c)
      == [Record(second.(conversations := [c])), second.(conversations := [c])]
  {
    assert MapOf([]) == [];
    assert Merge([], c) == [c];
  }

  /** With duplicate-free account ids the stored record is the account's own record, with
      only its conversations replaced by the merge. */
  lemma UpdatedAccountsUnique(accounts: seq<Account>, accountId: string, c: Conversation)
    requires UniqueAccountIds(accounts)
    requires exists j :: 0 <= j < |accounts| && accounts[j].id == accountId
    ensures var i := FindAccountIndex(accounts, accountId);
      0 <= i && UpdatedAccounts(accounts, accountId, c)
        == accounts[i := Record(accounts[i].(conversations := Merge(accounts[i].conversations, c)))]
  {
    var i := FindAccountIndex(accounts, accountId);
    var k := LastAccountIndex(accounts, accountId);
    assert accounts[k].id == accounts[i].id;
    assert k == i;
    var edited := accounts[k := accounts[k].(conversations := Merge(accounts[k].conversations, c))];
    FindAccountIndexOfSet(accounts, k, edited[k], accountId);
  }
}
