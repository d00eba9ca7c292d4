/** Account persistence of the extension host: account records in the editor's global state
    under "openai-accounts", the selected account id under "selectedAccount", and each
    account's API key in the secret store under "openai-key-<id>". */
module AccountStore {
  import opened Types

  const ACCOUNTS_KEY := "openai-accounts"
  const SELECTED_ACCOUNT_KEY := "selectedAccount"
  const SECRET_PREFIX := "openai-key-"

  /** A value kept in the global state: the account list or the selected id. */
  datatype StoredValue = AccountList(accounts: seq<Account>) | Text(text: string)

  function SecretKey(accountId: string): string {
    SECRET_PREFIX + accountId
  }

  /** Distinct accounts never share a secret-store entry. */
  lemma SecretKeyInjective(a: string, b: string)
    ensures SecretKey(a) == SecretKey(b) ==> a == b
  {
    if SecretKey(a) == SecretKey(b) {
      assert a == SecretKey(a)[|SECRET_PREFIX|..];
      assert b == SecretKey(b)[|SECRET_PREFIX|..];
    }
  }

  /** The record that is persisted for an account: every field but the API key. */
  function Record(account: Account): (r: Account)
    ensures r.apiKey == None
    ensures r.(apiKey := account.apiKey) == account
  {
    Account(account.id, account.name, None, account.conversations, account.assistants, account.models)
  }

  /** `findIndex(acc => acc.id === id)`. */
  function FindAccountIndex(accounts: seq<Account>, id: string): (r: int)
    ensures -1 <= r < |accounts|
    ensures r >= 0 ==> accounts[r].id == id
    ensures forall j :: 0 <= j < |accounts| && (r == -1 || j < r) ==> accounts[j].id != id
  {
    FirstIndex(accounts, (a: Account) => a.id, id)
  }

  /** The list `storeAccount` writes back: the first entry with the record's id replaced,
      or the record appended. */
  function Upsert(accounts: seq<Account>, info: Account): seq<Account> {
    var i := FindAccountIndex(accounts, info.id);
    if i >= 0 then accounts[i := info] else accounts + [info]
  }

  /** The upserted record is in the list at exactly one place relative to the old entries:
      at the first old entry with its id, or last. Every other entry keeps its position. */
  lemma UpsertPlacesRecord(accounts: seq<Account>, info: Account)
    ensures var r := Upsert(accounts, info);
      var i := FindAccountIndex(accounts, info.id);
      && |r| == (if i >= 0 then |accounts| else |accounts| + 1)
      && r[if i >= 0 then i else |accounts|] == info
      && forall j :: 0 <= j < |accounts| && j != i ==> r[j] == accounts[j]
  {
  }

  /** Storing never creates a second entry for an id, and an existing id keeps the count. */
  lemma {:induction false} UpsertKeepsIdsUnique(accounts: seq<Account>, info: Account)
    requires UniqueAccountIds(accounts)
    ensures UniqueAccountIds(Upsert(accounts, info))
    ensures (exists j :: 0 <= j < |accounts| && accounts[j].id == info.id) ==> |Upsert(accounts, info)| == |accounts|
  {
    var r := Upsert(accounts, info);
    var i := FindAccountIndex(accounts, info.id);
    forall a, b | 0 <= a < b < |r| ensures r[a].id != r[b].id {
      if i >= 0 {
        assert r[a].id == accounts[a].id && r[b].id == accounts[b].id;
      } else if b == |accounts| {
        assert r[a] == accounts[a];
      } else {
        assert r[a] == accounts[a] && r[b] == accounts[b];
      }
    }
  }

  /** Storing the same record twice is the same as storing it once. */
  lemma UpsertIdempotent(accounts: seq<Account>, info: Account)
    ensures Upsert(Upsert(accounts, info), info) == Upsert(accounts, info)
  {
    var r := Upsert(accounts, info);
    var i := FindAccountIndex(accounts, info.id);
    var k := FindAccountIndex(r, info.id);
    if i >= 0 {
      assert r[i].id == info.id;
      assert forall j :: 0 <= j < i ==> r[j].id != info.id;
      assert k == i;
    } else {
      assert r[|accounts|].id == info.id;
      assert k == |accounts|;
    }
  }

  /** Every entry of the upserted list is an old entry or the new record. */
  lemma UpsertElements(accounts: seq<Account>, info: Account)
    ensures forall a :: a in Upsert(accounts, info) ==> a in accounts || a == info
  {
  }

  /** `filter(acc => acc.id !== id)`. */
  function WithoutAccount(accounts: seq<Account>, id: string): (r: seq<Account>)
    ensures |r| <= |accounts|
    ensures forall a :: a in r <==> a in accounts && a.id != id
  {
    if accounts == [] then []
    else (if accounts[0].id != id then [accounts[0]] else []) + WithoutAccount(accounts[1..], id)
  }

  /** The filter keeps the surviving entries in their order: it distributes over concatenation. */
  lemma {:induction false} WithoutAccountDistributes(a: seq<Account>, b: seq<Account>, id: string)
    ensures WithoutAccount(a + b, id) == WithoutAccount(a, id) + WithoutAccount(b, id)
  {
    if a == [] {
      assert a + b == b;
    } else {
      assert (a + b)[1..] == a[1..] + b;
      WithoutAccountDistributes(a[1..], b, id);
      assert WithoutAccount(a + b, id)
        == (if a[0].id != id then [a[0]] else []) + WithoutAccount(a[1..] + b, id);
    }
  }

  /** A list with no entry for the id is left as it is. */
  lemma {:induction false} WithoutAbsentAccount(a: seq<Account>, id: string)
    requires forall j :: 0 <= j < |a| ==> a[j].id != id
    ensures WithoutAccount(a, id) == a
  {
    if a != [] {
      WithoutAbsentAccount(a[1..], id);
    }
  }

  function SecretKeysOf(accounts: seq<Account>): set<string> {
    set a | a in accounts :: SecretKey(a.id)
  }

  /** The extension's `AccountManager`: the global-state and secret stores it updates. */
  class AccountManager {
    var globalState: map<string, StoredValue>
    var secrets: map<string, string>

    /** The manager works on the extension context's stores as they are when it is created. */
    constructor (globalState: map<string, StoredValue>, secrets: map<string, string>)
      ensures this.globalState == globalState && this.secrets == secrets
    {
      this.globalState := globalState;
      this.secrets := secrets;
    }

    /** No persisted record carries an API key. */
    ghost predicate Valid()
      reads this
    {
      forall a :: a in GetAccounts() ==> a.apiKey == None
    }

    /** `getAccounts`: the stored list, or the empty list when none is stored. */
    function GetAccounts(): (r: seq<Account>)
      reads this
      ensures ACCOUNTS_KEY !in globalState ==> r == []
    {
      if ACCOUNTS_KEY in globalState && globalState[ACCOUNTS_KEY].AccountList?
      then globalState[ACCOUNTS_KEY].accounts
      else []
    }

    /** `getSelectedAccount`. */
    function GetSelectedAccount(): (r: Option<string>)
      reads this
      ensures SELECTED_ACCOUNT_KEY !in globalState ==> r == None
    {
      if SELECTED_ACCOUNT_KEY in globalState && globalState[SELECTED_ACCOUNT_KEY].Text?
      then Some(globalState[SELECTED_ACCOUNT_KEY].text)
      else None
    }

    /** `getApiKey`. */
    function GetApiKey(accountId: string): (r: Option<string>)
      reads this
      ensures r.Some? <==> SecretKey(accountId) in secrets
    {
      if SecretKey(accountId) in secrets then Some(secrets[SecretKey(accountId)]) else None
    }

    method SetSelectedAccount(accountId: string)
      modifies this
      ensures globalState == old(globalState)[SELECTED_ACCOUNT_KEY := Text(accountId)]
      ensures secrets == old(secrets)
      ensures GetSelectedAccount() == Some(accountId)
      ensures GetAccounts() == old(GetAccounts())
      ensures Valid() == old(Valid())
    {
      globalState := globalState[SELECTED_ACCOUNT_KEY := Text(accountId)];
    }

    /** An assignment to the conversations of an account object `getAccounts` returned: the
        object is the stored entry at index `k`, so the stored list changes with it. */
    method SetStoredConversations(k: int, conversations: seq<Conversation>)
      requires Valid() && 0 <= k < |GetAccounts()|
      modifies this
      ensures Valid()
      ensures GetAccounts() == old(GetAccounts())[k := old(GetAccounts())[k].(conversations := conversations)]
      ensures globalState == old(globalState)[ACCOUNTS_KEY := AccountList(GetAccounts())]
      ensures secrets == old(secrets)
      ensures GetSelectedAccount() == old(GetSelectedAccount())
    {
      var accounts := GetAccounts();
      accounts := accounts[k := accounts[k].(conversations := conversations)];
      globalState := globalState[ACCOUNTS_KEY := AccountList(accounts)];
    }

    /** `storeAccount`: the key goes to the secret store only when it is non-empty; the record
        without the key replaces the first entry with its id, or is appended. */
    method StoreAccount(account: Account)
      requires Valid()
      modifies this
      ensures Valid()
      ensures GetAccounts() == Upsert(old(GetAccounts()), Record(account))
      ensures globalState == old(globalState)[ACCOUNTS_KEY := AccountList(GetAccounts())]
      ensures secrets == if Truthy(account.apiKey) then old(secrets)[SecretKey(account.id) := account.apiKey.value]
                         else old(secrets)
      ensures Truthy(account.apiKey) ==> GetApiKey(account.id) == account.apiKey
      ensures !Truthy(account.apiKey) ==> GetApiKey(account.id) == old(GetApiKey(account.id))
      ensures GetSelectedAccount() == old(GetSelectedAccount())
    {
      if Truthy(account.apiKey) {
        secrets := secrets[SecretKey(account.id) := account.apiKey.value];
      }
      var accountInfo := Record(account);
      var accounts := GetAccounts();
      var existingIndex := FindAccountIndex(accounts, account.id);
      if existingIndex != -1 {
        accounts := accounts[existingIndex := accountInfo];
      } else {
        accounts := accounts + [accountInfo];
      }
      UpsertElements(old(GetAccounts()), accountInfo);
      globalState := globalState[ACCOUNTS_KEY := AccountList(accounts)];
    }

    /** `deleteAccount`: drops the key, every record with the id, and the selection when it
        named this account. */
    method DeleteAccount(accountId: string)
      requires Valid()
      modifies this
      ensures Valid()
      ensures secrets == old(secrets) - {SecretKey(accountId)}
      ensures GetApiKey(accountId) == None
      ensures GetAccounts() == WithoutAccount(old(GetAccounts()), accountId)
      ensures GetSelectedAccount() == if old(GetSelectedAccount()) == Some(accountId) then None
                                      else old(GetSelectedAccount())
    {
      secrets := secrets - {SecretKey(accountId)};
      var accounts := GetAccounts();
      var filteredAccounts := WithoutAccount(accounts, accountId);
      globalState := globalState[ACCOUNTS_KEY := AccountList(filteredAccounts)];
      if SELECTED_ACCOUNT_KEY in globalState && globalState[SELECTED_ACCOUNT_KEY] == Text(accountId) {
        globalState := globalState - {SELECTED_ACCOUNT_KEY};
      }
    }

    /** `deleteAllAccounts`: the key of every stored account is deleted one by one, then the
        list is emptied and the selection cleared. */
    method DeleteAllAccounts()
      modifies this
      ensures Valid()
      ensures secrets == old(secrets) - SecretKeysOf(old(GetAccounts()))
      ensures forall a :: a in old(GetAccounts()) ==> GetApiKey(a.id) == None
      ensures GetAccounts() == [] && GetSelectedAccount() == None
    {
      var accounts := GetAccounts();
      var i := 0;
      while i < |accounts|
        invariant 0 <= i <= |accounts|
        invariant accounts == old(GetAccounts()) && globalState == old(globalState)
        invariant secrets == old(secrets) - SecretKeysOf(accounts[..i])
      {
        assert accounts[..i + 1] == accounts[..i] + [accounts[i]];
        assert SecretKeysOf(accounts[..i + 1]) == SecretKeysOf(accounts[..i]) + {SecretKey(accounts[i].id)};
        secrets := secrets - {SecretKey(accounts[i].id)};
        i := i + 1;
      }
      assert accounts[..i] == accounts;
      globalState := globalState[ACCOUNTS_KEY := AccountList([])];
      globalState := globalState - {SELECTED_ACCOUNT_KEY};
    }
  }
}
