/** The first version of the extension host's account persistence (`src/AccountManager.ts`). It
    shares the global-state key "openai-accounts" and the secret names "openai-key-<id>" with
    the current manager, but it writes only an id and a name per record, and it appends on
    every store instead of replacing the entry with the same id. */
module LegacyAccounts {
  import opened Types
  import opened AccountStore

  /** A stored account as the older code reads it. The records the older code writes carry no
      conversation list (`None`); records written by the current manager do (`Some`). The other
      fields of a current record are not read by the older code. */
  datatype LegacyEntry = LegacyEntry(id: string, name: string, conversations: Option<seq<Conversation>>)

  /** `{ id: account.id, name: account.name }`: the record the older `storeAccount` pushes. */
  function InfoOf(id: string, name: string): LegacyEntry {
    LegacyEntry(id, name, None)
  }

  /** `findIndex(acc => acc.id === id)`. */
  function FindEntryIndex(entries: seq<LegacyEntry>, id: string): (r: int)
    ensures -1 <= r < |entries|
    ensures r >= 0 ==> entries[r].id == id
    ensures forall j :: 0 <= j < |entries| && (r == -1 || j < r) ==> entries[j].id != id
  {
    FirstIndex(entries, (e: LegacyEntry) => e.id, id)
  }

  /** How many entries carry the id. */
  function CountId(entries: seq<LegacyEntry>, id: string): nat {
    if entries == [] then 0
    else (if entries[|entries| - 1].id == id then 1 else 0) + CountId(entries[..|entries| - 1], id)
  }

  /** No two entries share an id. */
  predicate UniqueEntryIds(entries: seq<LegacyEntry>) {
    forall i, j :: 0 <= i < j < |entries| ==> entries[i].id != entries[j].id
  }

  /** `filter(acc => acc.id !== accountId)`. */
  function WithoutId(entries: seq<LegacyEntry>, id: string): (r: seq<LegacyEntry>)
    ensures |r| <= |entries|
    ensures forall e :: e in r <==> e in entries && e.id != id
  {
    if entries == [] then []
    else (if entries[0].id != id then [entries[0]] else []) + WithoutId(entries[1..], id)
  }

  /** The older `AccountManager`: the account list in the global state and the secret store.
      A secret written from a value that is not a string (`undefined`) is `None`. */
  class LegacyAccountManager {
    var globalState: map<string, seq<LegacyEntry>>
    var secrets: map<string, Option<string>>

    /** The manager works on the extension context's stores as they are when it is created. */
    constructor (globalState: map<string, seq<LegacyEntry>>, secrets: map<string, Option<string>>)
      ensures this.globalState == globalState && this.secrets == secrets
    {
      this.globalState := globalState;
      this.secrets := secrets;
    }

    /** `getAccounts`: the stored list, or the empty list when none is stored. */
    function GetAccounts(): (r: seq<LegacyEntry>)
      reads this
      ensures ACCOUNTS_KEY !in globalState ==> r == []
      ensures ACCOUNTS_KEY in globalState ==> r == globalState[ACCOUNTS_KEY]
    {
      if ACCOUNTS_KEY in globalState then globalState[ACCOUNTS_KEY] else []
    }

    /** `getApiKey`: what was stored under the account's secret name, if anything. */
    function GetApiKey(accountId: string): (r: Option<string>)
      reads this
      ensures SecretKey(accountId) !in secrets ==> r == None
      ensures SecretKey(accountId) in secrets ==> r == secrets[SecretKey(accountId)]
    {
      if SecretKey(accountId) in secrets then secrets[SecretKey(accountId)] else None
    }

    /** `storeAccount`: the key is written whatever it is, and the id and name are appended to
        the list even when an entry with the id exists. */
    method StoreAccount(id: string, name: string, apiKey: Option<string>)
      modifies this
      ensures secrets == old(secrets)[SecretKey(id) := apiKey]
      ensures GetApiKey(id) == apiKey
      ensures GetAccounts() == old(GetAccounts()) + [InfoOf(id, name)]
      ensures globalState == old(globalState)[ACCOUNTS_KEY := GetAccounts()]
    {
      secrets := secrets[SecretKey(id) := apiKey];
      var accounts := GetAccounts();
      var accountInfo := InfoOf(id, name);
      accounts := accounts + [accountInfo];
      globalState := globalState[ACCOUNTS_KEY := accounts];
    }

    /** `deleteAccount`: the key and every entry with the id go; nothing else is touched. */
    method DeleteAccount(accountId: string)
      modifies this
      ensures secrets == old(secrets) - {SecretKey(accountId)}
      ensures GetApiKey(accountId) == None
      ensures GetAccounts() == WithoutId(old(GetAccounts()), accountId)
      ensures globalState == old(globalState)[ACCOUNTS_KEY := GetAccounts()]
    {
      secrets := secrets - {SecretKey(accountId)};
      var accounts := GetAccounts();
      var filteredAccounts := WithoutId(accounts, accountId);
      globalState := globalState[ACCOUNTS_KEY := filteredAccounts];
    }
  }
}
