/** The records shared by the extension host and the webview: accounts, conversations,
    messages, assistants, models and context items. */
module Types {

  datatype Option<+T> = None | Some(value: T)

  /** An awaited remote or file-system call: its value, or the message of the error it throws. */
  datatype Outcome<+T> = Ok(value: T) | Fail(message: string)

  datatype Sender = FromUser | FromAssistant | FromSystem

  /** A context file named on a user message; the extension always leaves `url` empty. */
  datatype Attachment = Attachment(url: string, path: string, fileName: string)

  /** A chat message. `sender` is absent only on messages the webview reducer creates from an
      incremental update; the three tags are absent when the update that wrote them had none. */
  datatype Message = Message(
    id: string,
    content: string,
    sender: Option<Sender>,
    timestamp: Option<string>,
    modelName: Option<string>,
    assistantName: Option<string>,
    attachments: Option<seq<Attachment>>)

  /** `threadId` is the remote thread bound to the conversation; None stands for null/undefined. */
  datatype Conversation = Conversation(
    id: string,
    title: string,
    date: string,
    messages: seq<Message>,
    lastMessage: string,
    threadId: Option<string>)

  datatype AssistantInfo = AssistantInfo(id: string, name: string, description: Option<string>, model: string)

  datatype ModelInfo = ModelInfo(id: string, name: string, created: int, ownedBy: string)

  /** An account. Records kept in the extension's global state never carry `apiKey`;
      the key lives in the secret store. */
  datatype Account = Account(
    id: string,
    name: string,
    apiKey: Option<string>,
    conversations: seq<Conversation>,
    assistants: seq<AssistantInfo>,
    models: seq<ModelInfo>)

  datatype ContextKind = FileItem | FileContextItem | SourceCodeItem

  /** An item of the message composer's context list. */
  datatype ContextItem = ContextItem(kind: ContextKind, name: string)

  /** JavaScript truthiness of an optional string: present and non-empty. */
  predicate Truthy(s: Option<string>) {
    s.Some? && s.value != ""
  }

  /** `findIndex(x => key(x) === id)`: the first index whose key is the id, or -1. */
  function FirstIndex<T>(s: seq<T>, key: T -> string, id: string): (r: int)
    ensures -1 <= r < |s|
    ensures r >= 0 ==> key(s[r]) == id
    ensures forall j :: 0 <= j < |s| && (r == -1 || j < r) ==> key(s[j]) != id
  {
    if s == [] then -1
    else if key(s[0]) == id then 0
    else
      var k := FirstIndex(s[1..], key, id);
      if k == -1 then -1 else k + 1
  }

  /** Ids of a list of conversations, in order. */
  function ConversationIds(cs: seq<Conversation>): (ids: seq<string>)
    ensures |ids| == |cs|
    ensures forall i :: 0 <= i < |cs| ==> ids[i] == cs[i].id
  {
    if cs == [] then [] else [cs[0].id] + ConversationIds(cs[1..])
  }

  /** No two entries share an id. */
  predicate UniqueConversationIds(cs: seq<Conversation>) {
    forall i, j :: 0 <= i < j < |cs| ==> cs[i].id != cs[j].id
  }

  predicate UniqueAccountIds(accounts: seq<Account>) {
    forall i, j :: 0 <= i < j < |accounts| ==> accounts[i].id != accounts[j].id
  }

  /** Concatenation regroups freely. */
  lemma ConcatAssoc<T>(x: seq<T>, y: seq<T>, z: seq<T>)
    ensures x + (y + z) == x + y + z
  {
  }

  /** Two appends of one element are one append of both. */
  lemma AppendPair<T>(s: seq<T>, a: T, b: T)
    ensures s + [a] + [b] == s + [a, b]
  {
  }
}
