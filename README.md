# sherpa-coder, modelled in Dafny

sherpa-coder is a VS Code extension that chats with OpenAI assistants over threads. Its
parts are:

- an extension host, `VSCodeEventHandler`, that keeps accounts, conversations and a
  streaming run;
- a React webview, whose global state is a reducer driven by host commands;
- a message input box with file contexts;
- a chat window that rewrites LaTeX delimiters and pages through messages.

This project models the core of each part and proves what the code promises.

**Extension host.** The host's part of a chat turn is modelled step by step:

- the user message;
- the thread check;
- the uploads of file contexts under their retagged names;
- the placeholder;
- each stream event.

It is modelled as functions of the host state (`ChatTurn`) and as the class
`Orchestrator.EventHandler`, whose methods are proved to produce exactly those states. The
same goes for the conversation store operations and the `handleWebviewMessage` switch,
including the fall-through from "removeExtensionData" into "cancelRun".

**Accounts.** The account manager (`AccountStore.AccountManager`) keeps its global state
and its secret store as two maps.

**Webview.** The webview's parts are modelled as follows:

- `Reducer`: the reducer, as a total function over the state;
- `GlobalStateContext`: the provider's action creators and command translation, as a class
  that records the dispatched actions and the messages sent;
- `MessageInput`: the input box, as a value;
- `ChatWindow`: the delimiter rewriting, and the pager as a class.

**Legacy version.** The older versions of the host and the account manager are modelled
beside the current ones. Their index-based update and append-only store are set against
the current merge and upsert in `LegacyProperties`.

Service answers are inputs: thread retrieval and creation, uploads, the run stream, and
the model and assistant lists. So are ids, clock readings and the workspace's file list.

## Model

| member | source | states |
|---|---|---|
| AccountStore.SecretKeyInjective | src/core/AccountManager.ts:43-45 | two different account ids never name the same secret-store entry "openai-key-<id>" |
| AccountStore.Record | src/core/AccountManager.ts:51-57 | the persisted record carries no API key and agrees with the account on every other field |
| AccountStore.FindAccountIndex | src/core/AccountManager.ts:65 | the result is -1 or an index of an entry with the id, and no entry before it (none at all for -1) has the id |
| AccountStore.UpsertPlacesRecord | src/core/AccountManager.ts:65-73 | storing replaces the first entry with the record's id, or appends the record when there is none; every other entry keeps its position and the length grows only on an append |
| AccountStore.AccountManager.SetStoredConversations | src/core/EventHandler.ts:890 | assigning the conversations of an account object taken from the stored list changes that entry of the stored list and nothing else |
| AccountStore.UpsertKeepsIdsUnique | src/core/AccountManager.ts:65-73 | storing into a list with unique ids keeps the ids unique, and storing a known id keeps the length |
| AccountStore.UpsertIdempotent | src/core/AccountManager.ts:65-73 | storing the same record twice leaves the list as storing it once |
| AccountStore.UpsertElements | src/core/AccountManager.ts:65-73 | every entry after a store is an old entry or the stored record |
| AccountStore.WithoutAccount | src/core/AccountManager.ts:99 | the filtered list holds exactly the old entries whose id differs and is no longer than the old one |
| AccountStore.WithoutAccountDistributes | src/core/AccountManager.ts:99 | the filter keeps survivors in order: it distributes over concatenation |
| AccountStore.WithoutAbsentAccount | src/core/AccountManager.ts:99 | a list with no entry for the id is left unchanged |
| AccountStore.AccountManager.constructor | src/core/AccountManager.ts:11-13 | a new manager works on the global state and secret store of the context it is given, as they are |
| AccountStore.AccountManager.GetAccounts | src/core/AccountManager.ts:86-91 | with nothing stored under "openai-accounts" the list is empty |
| AccountStore.AccountManager.GetSelectedAccount | src/core/AccountManager.ts:24-29 | with nothing stored under "selectedAccount" there is no selection |
| AccountStore.AccountManager.GetApiKey | src/core/AccountManager.ts:79-84 | a key is returned exactly when the secret store has an entry for the account |
| AccountStore.AccountManager.SetSelectedAccount | src/core/AccountManager.ts:31-35 | the selection becomes the id; the account list, the secrets and the no-key invariant are unchanged |
| AccountStore.AccountManager.StoreAccount | src/core/AccountManager.ts:37-77 | the list becomes the upsert of the key-free record; the key is written only when it is non-empty, otherwise the old key stays; the selection is unchanged and no record carries a key |
| AccountStore.AccountManager.DeleteAccount | src/core/AccountManager.ts:93-111 | the key and every record with the id are removed, and the selection is cleared exactly when it named the account |
| AccountStore.AccountManager.DeleteAllAccounts | src/core/AccountManager.ts:112-127 | the loop deletes the key of every stored account and nothing else; afterwards the list is empty and there is no selection |
| ConversationMerge.FindConversationIndex | src/core/EventHandler.ts:909 | the result is -1 or the index of a conversation with the id, and no earlier conversation (none at all for -1) has the id |
| ConversationMerge.SetByIdFacts | src/core/EventHandler.ts:888 | setting a conversation on a duplicate-free list keeps ids unique, makes it the only entry with its id, adds exactly its id, and leaves every other entry where it was |
| ConversationMerge.MapOfUnique | src/core/EventHandler.ts:885-887 | building the map from an account's conversations gives a duplicate-free list with exactly the ids the account had |
| ConversationMerge.MapOfIdentity | src/core/EventHandler.ts:885-887 | a duplicate-free list goes through the map unchanged |
| ConversationMerge.MapOfLastWins | src/core/EventHandler.ts:885-887 | for every id the map keeps the last conversation of the list with that id |
| ConversationMerge.MergeLaw | src/core/EventHandler.ts:885-890 | after the merge the list has one entry per id, the passed conversation is the entry for its id, and the ids are the old ones plus its id |
| ConversationMerge.MergeOthersLastWins | src/core/EventHandler.ts:885-890 | every other entry of the merged list is the last conversation the account had with that id |
| ConversationMerge.MergeKeepsPosition | src/core/EventHandler.ts:885-890 | on a duplicate-free list the merge replaces an existing id in place and appends a new id |
| ConversationMerge.MergeIdempotent | src/core/EventHandler.ts:885-890 | merging the same conversation twice gives the same list as merging it once |
| ConversationMerge.WithoutConversation | src/core/EventHandler.ts:913-915 | the deletion keeps exactly the conversations with another id and never lengthens the list |
| ConversationMerge.WithoutConversationDistributes | src/core/EventHandler.ts:913-915 | deletion keeps the other conversations in their order |
| ConversationMerge.FindConversation | src/core/EventHandler.ts:841-843 | a conversation is found exactly when one has the id, and it is the first such one |
| ConversationMerge.DefaultConversation | src/core/EventHandler.ts:845-854 | the made-up conversation has the requested id, the title "Conversation <id>", today's date, no messages, an empty last message and no thread |
| ConversationMerge.FindAccount | src/core/EventHandler.ts:840 | a found account is in the list with the id; with none found no account has the id |
| ConversationMerge.LookupConversationSpec | src/core/EventHandler.ts:839-854 | the lookup always yields a conversation with the requested id: the stored one when the account holds it, otherwise the default |
| ConversationMerge.LastAccountIndex | src/core/EventHandler.ts:878-881 | the map's entry for an id comes from the last account with that id, or there is none when no account has it |
| ConversationMerge.LastAccountWithId | src/core/EventHandler.ts:878-881 | the map lookup finds an account with the id exactly when the list has one, and it is taken from the list |
| ConversationMerge.UpdatedAccountsUnknown | src/core/EventHandler.ts:883 | for an unknown account the stored list is unchanged |
| ConversationMerge.UpdatedAccountsKnown | src/core/EventHandler.ts:878-891 | for a known account its first entry becomes the key-free record of its last entry, with conversations that are duplicate-free and hold the passed conversation as the entry for its id; the last entry, edited in place, keeps its fields and takes the same conversations; no other entry changes and the length stays |
| ConversationMerge.UpdatedAccountsTwoEntries | src/core/EventHandler.ts:878-891 | with two entries for one id and no conversations, both end up holding just the passed conversation, the first as the record of the second |
| ConversationMerge.UpdatedAccountsUnique | src/core/EventHandler.ts:878-891 | with unique account ids the stored entry is the account's own record with only its conversations replaced by the merge |
| Types.FirstIndex | src/core/AccountManager.ts:65 | `findIndex` by a key: -1 or an index whose element has the key, with no earlier element (none at all for -1) having it; the account, conversation, legacy-entry, model and assistant lookups are all this search |
| Types.ConversationIds | src/types/index.ts:10-17 | the id list has one entry per conversation, in order |
| Text.Lower | src/core/EventHandler.ts:668 | lower-casing keeps the length and lower-cases each character |
| Text.LastIndexOf | src/core/EventHandler.ts:668 | the index is -1 or a position holding the character |
| Text.LastIndexOfIsLast | src/core/EventHandler.ts:668 | no occurrence of the character follows the index found |
| Text.AfterLastSlashSpec | src/core/EventHandler.ts:391 | the text after the last "/" is a "/"-free suffix of the path that starts it or follows a "/" |
| Text.StripTrailingSlashesSpec | src/core/EventHandler.ts:667 | stripping keeps a prefix not ending in "/" and drops only "/" characters |
| Text.BasenameHasNoSlash | src/core/EventHandler.ts:667 | a base name is one path segment: it contains no "/" |
| Text.Extname | src/core/EventHandler.ts:668 | an extension is empty or starts with "." |
| Text.ExtnameSpec | src/core/EventHandler.ts:668 | an extension is a suffix of the name whose only "." is its first character |
| FileContext.AllowedBefore | src/core/EventHandler.ts:670-701 | an entry of the allowed-extension list is found by a scan starting anywhere before it |
| FileContext.TxtAllowed | src/core/EventHandler.ts:696 | "txt" is an allowed extension |
| FileContext.EmptyNotAllowedFrom | src/core/EventHandler.ts:670-701 | the empty extension is never allowed |
| FileContext.FinalFileName | src/core/EventHandler.ts:703-705 | the upload name is the file name or the file name with ".txt" appended |
| FileContext.ExtnameOfTxt | src/core/EventHandler.ts:705 | appending ".txt" to a non-empty name makes ".txt" its extension |
| FileContext.FinalFileNameKeepsAllowed | src/core/EventHandler.ts:703-705 | a name is uploaded as it is exactly when its lower-cased extension is allowed |
| FileContext.FinalFileNameAllowed | src/core/EventHandler.ts:667-705 | every non-empty name is uploaded under a name whose extension is allowed |
| FileContext.FinalFileNameIdempotent | src/core/EventHandler.ts:703-705 | retagging an upload name again changes nothing |
| FileContext.EmptyNameRetagged | src/core/EventHandler.ts:703-705 | the empty name becomes ".txt", which itself has no allowed extension |
| FileContext.AttachmentFileName | src/core/EventHandler.ts:391 | the attachment name is never longer than the path |
| FileContext.AttachmentFileNameNoSlash | src/core/EventHandler.ts:391 | a path without "/" is its own attachment name |
| FileContext.AttachmentFileNameSegment | src/core/EventHandler.ts:391 | for a path not ending in "/" the attachment name is its non-empty final segment |
| Reducer.ReplaceConversation | src/webview/providers/globalState/reducer.ts:113-127 | the mapped list has the same length and holds the new conversation exactly where an entry had its id |
| Reducer.ReplaceInSelected | src/webview/providers/globalState/reducer.ts:113-127 | only accounts whose id is the selection get their conversations replaced; every other account is kept |
| Reducer.PatchAll | src/webview/providers/globalState/reducer.ts:186-218 | every message with the patch's id is patched; every other message and the length are kept |
| Reducer.UpdateAccountsSpec | src/webview/providers/globalState/reducer.ts:68-77 | the accounts are replaced and loading ends; an absent selection keeps the old one, null clears it, an id sets it; nothing else changes |
| Reducer.UpdateConversationSpec | src/webview/providers/globalState/reducer.ts:113-127 | the conversation becomes current and replaces the entries with its id in the selected account only; no account gains or loses a conversation or an id, and nothing else changes |
| Reducer.UpdateMessageReplaces | src/webview/providers/globalState/reducer.ts:186-218 | for a known message id every message with the id takes the patch's content, names and timestamp and keeps its id, sender and attachments; all other messages and the count stay |
| Reducer.UpdateMessageAppends | src/webview/providers/globalState/reducer.ts:186-218 | for an unknown message id the patch is appended as a new message; nothing else changes |
| Reducer.UpdateMessageWithoutConversation | src/webview/providers/globalState/reducer.ts:186-218 | without a current conversation the state is returned unchanged |
| Reducer.SetListsSelectFirst | src/webview/providers/globalState/reducer.ts:144-155 | setting the assistants or models selects the first entry's id, or "" for an empty list, and changes nothing else |
| Reducer.SetTypingSetsLoading | src/webview/providers/globalState/reducer.ts:128-133 | the typing flag and the loading flag both take the payload; nothing else changes |
| Reducer.ToggleIsInvolution | src/webview/providers/globalState/reducer.ts:176-180 | full-screen flips, and flipping twice gives back the state |
| Reducer.DismissSpec | src/webview/providers/globalState/reducer.ts:93-97 | dismissing the error clears just the error; dismissing the client status resets it to the initial idle status and changes nothing else |
| Reducer.SettersChangeOneField | src/webview/providers/globalState/reducer.ts:78-112 | each plain setter changes exactly its own field, and an action of an unknown type returns the state unchanged |
| Reducer.SelectedAccountUntouched | src/webview/providers/globalState/reducer.ts:63-223 | no action changes the derived selected-account field |
| Reducer.FirstActionsKeepSelectedAccount | src/webview/providers/globalState/reducer.ts:68-155 | the account, conversation, error, loading, typing, status and list actions keep the derived selected account |
| Reducer.OtherActionsKeepSelectedAccount | src/webview/providers/globalState/reducer.ts:156-185 | the selection, workspace, new-account, initialised and dismiss actions and unknown types keep the derived selected account |
| Reducer.PatchAllIdempotent | src/webview/providers/globalState/reducer.ts:186-218 | patching the messages twice with one patch is patching them once |
| Reducer.UpdatedMessagesHasId | src/webview/providers/globalState/reducer.ts:186-218 | after an update message some message has the patch's id |
| Reducer.UpdatedMessagesIdempotent | src/webview/providers/globalState/reducer.ts:186-218 | applying the same update message twice gives the messages applying it once gives |
| Reducer.ReplaceInSelectedIdempotent | src/webview/providers/globalState/reducer.ts:113-127 | replacing a conversation in the selected account twice is replacing it once |
| Reducer.ReduceIdempotent | src/webview/providers/globalState/reducer.ts:63-223 | every action except the full-screen toggle leaves the state as it found it when dispatched a second time |
| Reducer.FirstSettersIdempotent | src/webview/providers/globalState/reducer.ts:68-155 | the account, selection, conversation, error, loading, typing, status and assistant setters are idempotent |
| Reducer.OtherSettersIdempotent | src/webview/providers/globalState/reducer.ts:78-185 | every remaining setter, the dismiss actions and unknown types are idempotent |
| GlobalStateContext.SelectedAccountOf | src/webview/providers/globalState/globalStateContext.tsx:370 | the selected account is an account of the list with the selected id; with none, no account has that id |
| GlobalStateContext.AssistantName | src/webview/providers/globalState/globalStateContext.tsx:136 | a name is found exactly when some assistant has the id |
| GlobalStateContext.ModelName | src/webview/providers/globalState/globalStateContext.tsx:137 | a name is found exactly when some model has the id |
| GlobalStateContext.NamedById | src/webview/providers/globalState/globalStateContext.tsx:294-297 | each model keeps its place and every field but its name, which becomes its id |
| GlobalStateContext.NewConversation | src/webview/providers/globalState/globalStateContext.tsx:229-236 | the new conversation has the fresh id, the given title or "Conversation <id>" for an empty one, today's date, no messages, an empty last message and no thread |
| GlobalStateContext.InboundEffects | src/webview/providers/globalState/globalStateContext.tsx:275-354 | the command-to-actions translation of the message handler, one list of dispatches per command and none for a command without a case |
| GlobalStateContext.GlobalStateProvider.constructor | src/webview/providers/globalState/globalStateContext.tsx:357 | mounting starts from the initial state and asks the extension to initialise the client |
| GlobalStateContext.GlobalStateProvider.Perform | src/webview/providers/globalState/globalStateContext.tsx:33-35 | the loop applies the effects in order: the state is the reducer fold over the dispatches and every effect is logged in order |
| GlobalStateContext.GlobalStateProvider.SelectAccount | src/webview/providers/globalState/globalStateContext.tsx:41-50 | the state and log after selecting an account are those of its effect list |
| GlobalStateContext.GlobalStateProvider.HandleCreateAccount | src/webview/providers/globalState/globalStateContext.tsx:71-87 | the state and log after creating an account are those of its effect list |
| GlobalStateContext.GlobalStateProvider.HandleDeleteAccount | src/webview/providers/globalState/globalStateContext.tsx:93-96 | the state and log after deleting an account are those of its effect list |
| GlobalStateContext.GlobalStateProvider.HandleRemoveExtensionData | src/webview/providers/globalState/globalStateContext.tsx:101-106 | the state and log after removing the extension data are those of its effect list |
| GlobalStateContext.GlobalStateProvider.HandleSendChatMessage | src/webview/providers/globalState/globalStateContext.tsx:128-153 | the state and log after sending a chat message are those of its effect list |
| GlobalStateContext.GlobalStateProvider.HandleDeleteConversation | src/webview/providers/globalState/globalStateContext.tsx:159-171 | the state and log after deleting a conversation are those of its effect list |
| GlobalStateContext.GlobalStateProvider.CreateNewConversation | src/webview/providers/globalState/globalStateContext.tsx:225-243 | the state and log after creating a conversation are those of its effect list |
| GlobalStateContext.GlobalStateProvider.SetSelectedAssistant | src/webview/providers/globalState/globalStateContext.tsx:177-180 | the state and log after choosing an assistant are those of its effect list |
| GlobalStateContext.GlobalStateProvider.SetSelectedModel | src/webview/providers/globalState/globalStateContext.tsx:186-189 | the state and log after choosing a model are those of its effect list |
| GlobalStateContext.GlobalStateProvider.RefreshModelsAndAssistants | src/webview/providers/globalState/globalStateContext.tsx:208-211 | the state and log after a refresh request are those of its effect list |
| GlobalStateContext.GlobalStateProvider.Receive | src/webview/providers/globalState/globalStateContext.tsx:266-355 | the state and log after a command from the extension are those of the command's effect list |
| GlobalStateContext.GlobalStateProvider.SyncClientInitialized | src/webview/providers/globalState/globalStateContext.tsx:365-368 | the state and log after recomputing the initialised flag are those of its effect list |
| GlobalStateProperties.ApplyConcat | src/webview/providers/globalState/globalStateContext.tsx:33-35 | effects issued one list after another have the state and the messages of the whole list |
| GlobalStateProperties.SendsKeepState | src/webview/providers/globalState/globalStateContext.tsx:33-35 | a list of messages alone never changes the state, and sends one message per effect |
| GlobalStateProperties.FileContextsKeepEveryItem | src/webview/providers/globalState/globalStateContext.tsx:132-134 | every context item is sent as its name, in order: the three item kinds are exactly those the filter admits |
| GlobalStateProperties.ModelNameOfNamedList | src/webview/providers/globalState/globalStateContext.tsx:137 | in a list whose models are named by their ids, the name found for an id is that id |
| GlobalStateProperties.SelectAccountSpec | src/webview/providers/globalState/globalStateContext.tsx:41-50 | selecting does nothing exactly for an empty id or a non-idle client; otherwise it starts loading, clears the error and the current conversation, sets the selection, and sends the request last |
| GlobalStateProperties.CreateAccountSteps | src/webview/providers/globalState/globalStateContext.tsx:83-86 | with both fields filled the four effects clear the fields, start loading and send the new account |
| GlobalStateProperties.CreateAccountSpec | src/webview/providers/globalState/globalStateContext.tsx:71-87 | creation does nothing exactly when the name or the key is empty; otherwise it clears both fields, starts loading and sends an account with the fresh id, the old name and key, and no conversations, assistants or models |
| GlobalStateProperties.DeleteAccountSpec | src/webview/providers/globalState/globalStateContext.tsx:93-96 | deleting an account starts loading and sends the request; the list waits for the extension |
| GlobalStateProperties.RemoveExtensionDataSpec | src/webview/providers/globalState/globalStateContext.tsx:101-106 | the request is sent first; then the accounts are emptied, the selection nulled, loading ended and the form cleared |
| GlobalStateProperties.SendChatMessageSpec | src/webview/providers/globalState/globalStateContext.tsx:128-153 | sending does nothing exactly without a current conversation or a selected account; it never changes the state, and otherwise sends one payload for that account and conversation with the text, the selected assistant and model, and every context item's name in order |
| GlobalStateProperties.RestoreCurrentConversation | src/webview/providers/globalState/globalStateContext.tsx:163-165 | putting the current conversation back restores the state |
| GlobalStateProperties.DeleteCurrentConversation | src/webview/providers/globalState/globalStateContext.tsx:163-170 | deleting the current conversation clears it and sends the request for the selected account |
| GlobalStateProperties.DeleteOtherConversation | src/webview/providers/globalState/globalStateContext.tsx:163-170 | deleting any other conversation leaves the state and only sends the request |
| GlobalStateProperties.DeleteConversationSpec | src/webview/providers/globalState/globalStateContext.tsx:159-171 | deletion does nothing exactly without a selected account; otherwise the current conversation is cleared exactly when it is the deleted one, nothing else changes, and the request names the selected account |
| GlobalStateProperties.NewConversationSpec | src/webview/providers/globalState/globalStateContext.tsx:225-243 | creation does nothing exactly without a selected account; otherwise the new conversation is made current first and then sent with the account, titled as given or "Conversation <id>", with no messages and no thread |
| GlobalStateProperties.ChooseAssistantAndModelSpec | src/webview/providers/globalState/globalStateContext.tsx:177-189 | choosing an assistant or model records the id and sends it to the extension |
| GlobalStateProperties.RefreshLoadingSpec | src/webview/providers/globalState/globalStateContext.tsx:208-211 | a refresh marks the lists loading and asks for them; "refresh-Error" and "updateLists" both end that loading |
| GlobalStateProperties.RefreshMarksLoading | src/webview/providers/globalState/globalStateContext.tsx:208-211 | a refresh marks the lists loading and sends one request |
| GlobalStateProperties.RefreshErrorEndsLoading | src/webview/providers/globalState/globalStateContext.tsx:301-304 | "refresh-Error" ends the loading of the lists |
| GlobalStateProperties.OnlyRefreshErrorSends | src/webview/providers/globalState/globalStateContext.tsx:275-354 | of all commands from the extension only "refresh-Error" makes the webview send something: an error toast with the message |
| GlobalStateProperties.InboundAccountsSpec | src/webview/providers/globalState/globalStateContext.tsx:276-285 | "updateAccounts" stores the list and ends loading; an absent selection keeps the webview's, a given one replaces it; nothing else changes |
| GlobalStateProperties.InboundListsSpec | src/webview/providers/globalState/globalStateContext.tsx:292-300 | "updateLists" stores the assistants, and the models each named by its id, selects the first of each and ends both loadings |
| GlobalStateProperties.ChatAfterListsNamesModelById | src/webview/providers/globalState/globalStateContext.tsx:137-300 | once the lists have arrived, a chat message names its model by the model's id |
| GlobalStateProperties.InboundErrorSpec | src/webview/providers/globalState/globalStateContext.tsx:305-312 | "error" records the message, ends loading and marks the client failed with it, changing nothing else |
| GlobalStateProperties.InboundConnectingSpec | src/webview/providers/globalState/globalStateContext.tsx:316-319 | "openAIClient-Connecting" starts loading and marks the client connecting |
| GlobalStateProperties.InboundConnectedSpec | src/webview/providers/globalState/globalStateContext.tsx:320-339 | "openAIClient-Connected" and "openAIClient-Done" move the status on and end loading |
| GlobalStateProperties.InboundRetrievalSpec | src/webview/providers/globalState/globalStateContext.tsx:324-335 | the retrieval reports record their counts and leave loading alone |
| GlobalStateProperties.ConnectionSequenceEndsDone | src/webview/providers/globalState/globalStateContext.tsx:316-339 | the whole connection sequence ends with the client done and nothing loading, whatever the counts |
| GlobalStateProperties.InboundOtherSpec | src/webview/providers/globalState/globalStateContext.tsx:286-353 | typing sets typing and loading, a message update patches the current conversation, a conversation update goes to the reducer, and commands without a case change nothing |
| GlobalStateProperties.ClientInitializedSpec | src/webview/providers/globalState/globalStateContext.tsx:365-368 | the initialised flag holds exactly when there are models, an account is selected and nothing is loading; nothing else changes |
| MessageInput.WithoutIndex | src/webview/components/messageInput/index.tsx:149-151 | removing a valid index drops exactly that item and keeps the others in order; any other index leaves the list |
| MessageInput.FindModel | src/webview/components/messageInput/index.tsx:166 | a found model is in the list with the id; with none found no model has it |
| MessageInput.FindAssistant | src/webview/components/messageInput/index.tsx:170 | a found assistant is in the list with the id; with none found no assistant has it |
| MessageInput.InputBox.constructor | src/webview/components/messageInput/index.tsx:82-95 | mounting starts with an empty message and context, the temporary choices from the current selections, every file listed, and a request for the workspace files |
| MessageInput.InputBox.SetMessage | src/webview/components/messageInput/index.tsx:198 | typing replaces the message and nothing else |
| MessageInput.InputBox.HandleSendMessage | src/webview/components/messageInput/index.tsx:101-107 | the new state is the send rule applied to the old one |
| MessageInput.InputBox.HandleInputKeyPress | src/webview/components/messageInput/index.tsx:109-117 | the new state is the key rule applied to the old one |
| MessageInput.InputBox.SetTempSelectedModel | src/webview/components/messageInput/index.tsx:300 | clicking a model makes it the temporary choice and changes nothing else |
| MessageInput.InputBox.SetTempSelectedAssistant | src/webview/components/messageInput/index.tsx:357 | clicking an assistant makes it the temporary choice and changes nothing else |
| MessageInput.InputBox.SetSettingsDialogOpen | src/webview/components/messageInput/index.tsx:233 | opening or closing the settings dialog changes only that flag |
| MessageInput.InputBox.SetContextDialogOpen | src/webview/components/messageInput/index.tsx:390 | opening or closing the context dialog changes only that flag |
| MessageInput.InputBox.HandleSettingsDialogClose | src/webview/components/messageInput/index.tsx:119-128 | the new state is the settings-dialog rule applied to the old one |
| MessageInput.InputBox.HandleAddContext | src/webview/components/messageInput/index.tsx:130-139 | the new state is the add-file rule applied to the old one |
| MessageInput.InputBox.HandleAddSourceCode | src/webview/components/messageInput/index.tsx:141-147 | the new state is the add-source-code rule applied to the old one |
| MessageInput.InputBox.HandleRemoveContext | src/webview/components/messageInput/index.tsx:149-151 | the new state is the removal rule applied to the old one |
| MessageInput.InputBox.HandleNewContextItemChange | src/webview/components/messageInput/index.tsx:153-162 | the new state holds the search text and the filtered files |
| MessageInput.InputBox.OnFilesChanged | src/webview/components/messageInput/index.tsx:97-99 | a change of the workspace files lists them all again |
| MessageInputProperties.SendSpec | src/webview/components/messageInput/index.tsx:101-107 | a message is handed on exactly when it is not blank, together with the context as it was; afterwards the message and the context are empty and nothing else changed; a blank message changes nothing |
| MessageInputProperties.EnabledButtonSends | src/webview/components/messageInput/index.tsx:173-178 | when the send button is enabled, pressing it hands the message and the context on |
| MessageInputProperties.KeyPressSpec | src/webview/components/messageInput/index.tsx:109-117 | Enter without Shift sends, Shift+Enter and other keys change nothing, "@" only opens the context dialog |
| MessageInputProperties.AddContextSpec | src/webview/components/messageInput/index.tsx:130-139 | adding a file clears the search text and leaves the file attached; the list grows by that one item exactly when it was not attached |
| MessageInputProperties.AddContextKeepsFilesUnique | src/webview/components/messageInput/index.tsx:130-139 | adding files never attaches one name twice |
| MessageInputProperties.AddSourceCodeSpec | src/webview/components/messageInput/index.tsx:141-147 | the source-code item is appended every time, so two additions attach it twice, and the dialog closes; file names stay unique |
| MessageInputProperties.RemoveContextKeepsFilesUnique | src/webview/components/messageInput/index.tsx:149-151 | removing an item keeps file names unique |
| MessageInputProperties.RemoveUndoesAdd | src/webview/components/messageInput/index.tsx:130-151 | removing the item just attached gives back the old list |
| MessageInputProperties.MatchingSpec | src/webview/components/messageInput/index.tsx:157-159 | the matching files are exactly the listed files whose lower-cased name contains the lower-cased text |
| MessageInputProperties.FilterFilesSpec | src/webview/components/messageInput/index.tsx:153-162 | a blank search lists every file; otherwise exactly the files containing the text, ignoring case |
| MessageInputProperties.LowerTwice | src/webview/components/messageInput/index.tsx:158 | lower-casing twice is lower-casing once |
| MessageInputProperties.FilterIgnoresCase | src/webview/components/messageInput/index.tsx:153-162 | the search gives the same files for the text in lower case |
| MessageInputProperties.MatchingSameText | src/webview/components/messageInput/index.tsx:157-159 | matching against the lower-cased text finds the same files |
| MessageInputProperties.ShownModelSpec | src/webview/components/messageInput/index.tsx:164-167 | the model shown is the selected one when listed, else the first, else a placeholder with an empty id; with models it is always a listed one |
| MessageInputProperties.ShownAssistantSpec | src/webview/components/messageInput/index.tsx:168-171 | the assistant shown follows the same rule |
| MessageInputProperties.SettingsDialogSpec | src/webview/components/messageInput/index.tsx:119-128 | saving hands on the temporary choices and keeps them; cancelling resets them to the current selections and hands nothing on; both close the dialog |
| MessageInputProperties.ChooseThenSave | src/webview/components/messageInput/index.tsx:119-128 | choosing a model and an assistant and saving hands exactly those choices on and closes the dialog |
| MessageInputProperties.CancelThenSaveKeepsSelection | src/webview/components/messageInput/index.tsx:119-128 | saving after a cancel hands on the selections that were current, so a cancelled choice never reaches the global state |
| ChatWindow.LeadingSpaces | src/webview/components/chatWindow/index.tsx:40-43 | the greedy white-space run: every character before the count is white space and the next one is not |
| ChatWindow.Pager.constructor | src/webview/components/chatWindow/index.tsx:55-58 | a new window starts at max(0, count - 5) and satisfies the window invariant |
| ChatWindow.Pager.OnMessagesChanged | src/webview/components/chatWindow/index.tsx:67-70 | a change of the messages moves the window back to max(0, count - 5) and keeps the invariant |
| ChatWindow.Pager.MoveNext | src/webview/components/chatWindow/index.tsx:72-80 | the new start is the next-step rule applied to the old one; the messages and the invariant are kept |
| ChatWindow.Pager.MovePrev | src/webview/components/chatWindow/index.tsx:74-86 | the new start is the previous-step rule applied to the old one; the messages and the invariant are kept |
| ChatWindow.Pager.MoveFirst | src/webview/components/chatWindow/index.tsx:109-116 | the first-page button moves to 0 only when stepping back is enabled; the invariant is kept |
| ChatWindow.Pager.MoveLast | src/webview/components/chatWindow/index.tsx:137-146 | the last-page button moves to the latest window only when stepping forward is enabled; the invariant is kept |
| ChatWindowProperties.NoEscapeLiteral | src/webview/components/chatWindow/index.tsx:39-44 | a literal pattern starting with a backslash changes nothing in a text where that escape does not occur |
| ChatWindowProperties.NoEscapeOpening | src/webview/components/chatWindow/index.tsx:40-42 | an opener rewrite changes nothing in a text where the opener's escape does not occur |
| ChatWindowProperties.NoEscapeClosing | src/webview/components/chatWindow/index.tsx:41-43 | a closer rewrite changes nothing in a text where the closer's escape does not occur |
| ChatWindowProperties.PrefixLiteral | src/webview/components/chatWindow/index.tsx:39-44 | a backslash-free prefix passes a literal rewrite unchanged |
| ChatWindowProperties.PrefixOpening | src/webview/components/chatWindow/index.tsx:40-42 | a backslash-free prefix passes an opener rewrite unchanged |
| ChatWindowProperties.PrefixClosing | src/webview/components/chatWindow/index.tsx:41-43 | a backslash-free prefix not ending in white space passes a closer rewrite unchanged |
| ChatWindowProperties.OpeningAtStart | src/webview/components/chatWindow/index.tsx:40-42 | an opener and all the white space after it become the replacement |
| ChatWindowProperties.ClosingAtStart | src/webview/components/chatWindow/index.tsx:41-43 | white space followed by the closer becomes the replacement |
| ChatWindowProperties.SetAsideAndRestore | src/webview/components/chatWindow/index.tsx:39-44 | when every backslash escapes a dollar, setting dollars aside leaves only backslash-d escapes and putting them back restores the text |
| ChatWindowProperties.DelimiterRewritesFixed | src/webview/components/chatWindow/index.tsx:40-43 | a text whose only escapes are backslash-d passes the four delimiter rewrites unchanged |
| ChatWindowProperties.EscapedDollarsSurvive | src/webview/components/chatWindow/index.tsx:38-46 | a text whose every backslash escapes a dollar is rendered unchanged, so its escaped dollars survive |
| ChatWindowProperties.NoBackslashUnchanged | src/webview/components/chatWindow/index.tsx:38-46 | a text without a backslash is rendered unchanged |
| ChatWindowProperties.DollarWordIsRewritten | src/webview/components/chatWindow/index.tsx:39-44 | the proviso is needed: a text holding the literal word backslash-dollar comes out as an escaped dollar |
| ChatWindowProperties.OpenedFormula | src/webview/components/chatWindow/index.tsx:40-42 | on a formula between an opener and a closer, the opener and its white space become the replacement and the rest is untouched |
| ChatWindowProperties.ClosedFormula | src/webview/components/chatWindow/index.tsx:41-43 | the white space before a closer and the closer become the replacement |
| ChatWindowProperties.NoBackslashFixed | src/webview/components/chatWindow/index.tsx:39-44 | a text without backslashes passes each of the six rewrites unchanged |
| ChatWindowProperties.Chain | src/webview/components/chatWindow/index.tsx:38-46 | the rendering is the composition of its six rewrites in source order |
| ChatWindowProperties.InlineNothingSetAside | src/webview/components/chatWindow/index.tsx:39 | an inline formula holds no escaped dollar to set aside |
| ChatWindowProperties.InlineClosedStep | src/webview/components/chatWindow/index.tsx:41 | after the opener is rewritten, the white space and closer of an inline formula become a dollar |
| ChatWindowProperties.InlineDelimiters | src/webview/components/chatWindow/index.tsx:40-41 | an inline formula renders as dollar, formula, dollar: both delimiters take their adjacent white space with them |
| ChatWindowProperties.DisplayUntouchedUntilOpened | src/webview/components/chatWindow/index.tsx:39-41 | the set-aside and inline rewrites leave a display formula alone |
| ChatWindowProperties.DisplayClosedStep | src/webview/components/chatWindow/index.tsx:43 | after the opener is rewritten, the white space and closer of a display formula become a dollar line followed by a blank line |
| ChatWindowProperties.DisplayDelimiters | src/webview/components/chatWindow/index.tsx:42-43 | a display formula renders with a dollar on its own line after a blank line and before one, white space next to the delimiters dropped |
| ChatWindowProperties.LatestWindow | src/webview/components/chatWindow/index.tsx:55-70 | after a change the window shows the last min(count, 5) messages |
| ChatWindowProperties.VisibleSpec | src/webview/components/chatWindow/index.tsx:63-65 | the window holds at most five consecutive messages from its start, and is full whenever enough messages follow |
| ChatWindowProperties.NextStartSpec | src/webview/components/chatWindow/index.tsx:72-80 | stepping forward moves by exactly one when allowed and not at all otherwise, never while the assistant types, and never past the latest window |
| ChatWindowProperties.PrevStartSpec | src/webview/components/chatWindow/index.tsx:74-86 | stepping back moves by exactly one when allowed and not at all otherwise, never while the assistant types, and never before 0 |
| ChatWindowProperties.JumpSpec | src/webview/components/chatWindow/index.tsx:109-146 | the first- and last-page buttons stay within bounds and disable themselves once used |
| ChatWindowProperties.StepsUndo | src/webview/components/chatWindow/index.tsx:72-86 | a step back undoes a step forward, and a step forward undoes a step back |
| LegacyAccounts.FindEntryIndex | src/EventHandler.ts:256 | the index of the first entry with the id, or -1 exactly when no entry has it |
| LegacyAccounts.WithoutId | src/AccountManager.ts:38-46 | the entries without the id: an entry is kept exactly when it was there and has another id |
| LegacyAccounts.LegacyAccountManager.constructor | src/AccountManager.ts:9-14 | a new manager works on the global state and secret store of the context it is given, as they are |
| LegacyAccounts.LegacyAccountManager.GetAccounts | src/AccountManager.ts:34-36 | the stored list, or the empty list when nothing is stored |
| LegacyAccounts.LegacyAccountManager.GetApiKey | src/AccountManager.ts:30-32 | the secret stored under the account's id, or none |
| LegacyAccounts.LegacyAccountManager.StoreAccount | src/AccountManager.ts:16-28 | the key is written whatever it is and one id-and-name record is appended, even for an id already present; nothing else changes |
| LegacyAccounts.LegacyAccountManager.DeleteAccount | src/AccountManager.ts:38-46 | the key and every entry with the id are removed; nothing else changes |
| LegacyEventHandler.LegacyHandler.constructor | src/EventHandler.ts:6-18 | a new handler has no client, has posted nothing and started no run |
| LegacyEventHandler.LegacyHandler.InitializeClient | src/EventHandler.ts:73-123 | without a key only the key error is posted; with one the client exists and either the lists with the "gpt-" models only or the set-up error are posted |
| LegacyEventHandler.LegacyHandler.UpdateConversation | src/EventHandler.ts:250-277 | the global state and secrets become exactly the update outcome's; the call throws exactly when the entry has no conversation list |
| LegacyEventHandler.LegacyHandler.DeleteConversation | src/EventHandler.ts:279-296 | the global state and secrets become the delete outcome's, and the deletion is posted exactly when something was stored |
| LegacyEventHandler.LegacyHandler.HandleChatMessage | src/EventHandler.ts:125-227 | without a client only the error is posted; otherwise the turn's posts, one run seeded with the conversation, and the write-back outcome are exactly what the turn functions give; when nothing is written back, a stored conversation the lookup found still holds the user's message in the held list, and nothing else changes |
| LegacyEventHandler.LegacyHandler.EditHeldConversation | src/EventHandler.ts:142-156 | when the lookup handed back a stored conversation, the held list has the user's conversation in its place; otherwise nothing changes |
| LegacyEventHandler.LegacyHandler.FinishChat | src/EventHandler.ts:166-226 | the posts after the service calls and the write-back outcome are what the turn functions give, starting from the list after the in-place edit |
| LegacyEventHandler.HeldEditOverwritten | src/EventHandler.ts:155-156 | a write-back of the conversation stores the same list whether or not the turn's in-place edit of the held conversation came first |
| LegacyEventHandler.LegacyHandler.GetAccounts | src/EventHandler.ts:305-315 | the stored list is posted and nothing else changes |
| LegacyEventHandler.LegacyHandler.CreateAccount | src/EventHandler.ts:332-339 | the manager's list grows by the id and name and the key is written |
| LegacyEventHandler.LegacyHandler.DeleteAccount | src/EventHandler.ts:341-345 | the manager's list loses every entry with the id and the key is removed |
| LegacyProperties.CountIdPositive | src/AccountManager.ts:16-28 | an id is counted exactly when some entry has it |
| LegacyProperties.StoreAppends | src/AccountManager.ts:22-26 | a store adds one entry for the id, so a second store of an id breaks the uniqueness of ids |
| LegacyProperties.StoreContrast | src/AccountManager.ts:22-26 | the current manager replaces an entry with the same id where the older one appends |
| LegacyProperties.WithoutIdDistributes | src/AccountManager.ts:38-46 | the delete filter keeps the other entries in order across a concatenation |
| LegacyProperties.DeleteRemovesEveryEntry | src/AccountManager.ts:38-46 | after a delete no entry has the id and every other entry is kept |
| LegacyProperties.DeleteUndoesStore | src/AccountManager.ts:16-46 | a delete undoes a store of the id |
| LegacyProperties.LookupSpec | src/EventHandler.ts:228-248 | the conversation returned has the requested id: the entry's own when it has one, otherwise a fresh one with no messages |
| LegacyProperties.UpdateOutcomeSpec | src/EventHandler.ts:250-277 | no entry and no conversation list are the two error outcomes; otherwise the first conversation with the id is replaced or the conversation appended, the rest kept, and the entry's record appended |
| LegacyProperties.RepeatedUpdatesGrowList | src/EventHandler.ts:250-277 | a stored update keeps the edited entry first for its id, and every update adds one more entry for the account |
| LegacyProperties.FindEntryIndexOfEdit | src/EventHandler.ts:256-273 | editing an entry's conversations does not move it for the lookup by id |
| LegacyProperties.CountIdOfEdit | src/EventHandler.ts:256-273 | an edit-and-store adds exactly one entry with the id |
| LegacyProperties.CountIdSameIds | src/EventHandler.ts:256-273 | lists with the same ids position by position have the same counts |
| LegacyProperties.IndexUpsertAgreesOnUniqueIds | src/EventHandler.ts:256-270 | without repeated conversation ids the index-based update agrees with the current merge |
| LegacyProperties.IndexUpsertKeepsDuplicates | src/EventHandler.ts:256-270 | with a repeated id it keeps the second conversation where the merge keeps one |
| LegacyProperties.DeleteOutcomeSpec | src/EventHandler.ts:279-296 | every conversation with the id is dropped and the others kept in order; the deletion is stored exactly when the entry has a conversation list |
| LegacyProperties.WithoutConversationUnique | src/EventHandler.ts:279-296 | deleting a conversation keeps conversation ids unique |
| LegacyProperties.ThreadMessagesSpec | src/EventHandler.ts:163-170 | the thread messages are the conversation's messages, one by one, with their sender as role |
| LegacyProperties.ThreadSeeding | src/EventHandler.ts:149-170 | the thread holds the earlier messages in order followed by the user's new message |
| LegacyProperties.ReplySpec | src/EventHandler.ts:204-219 | a stored reply is posted as the conversation with the assistant's message appended, after typing is switched off |
| LegacyProperties.FailureSpec | src/EventHandler.ts:155-226 | a failed run or write-back writes nothing back and posts the error and typing off after the user's conversation; a stored conversation the lookup found is left as the user's conversation in its place in the held list, every other entry unchanged, and the next lookup returns it |
| LegacyProperties.FailedMessageResent | src/EventHandler.ts:155-166 | after a failed run on a stored conversation, the next turn on it seeds its thread with the earlier messages, the failed turn's message and then its own |
| LegacyProperties.TypingEnds | src/EventHandler.ts:159-226 | every turn switches typing on first and off again later |
| LegacyProperties.OwnEntriesCannotHoldConversations | src/AccountManager.ts:22-26 | an entry written by the older manager has no conversation list, so a reply to that account is never stored |
| LegacyProperties.GptModelsSpec | src/EventHandler.ts:100-102 | the models posted are exactly those whose id starts with "gpt-", no more than there were |
| ChatTurn.Attachments | src/core/EventHandler.ts:381-395 | one attachment per file context, in order, each named by the context's base name |
| ChatTurn.SubmitContent | src/core/EventHandler.ts:440-457 | the message goes to the thread as typed without file contexts, and prefixed with the search hint with them |
| ChatTurn.NewThread | src/core/EventHandler.ts:402-417 | a thread id the turn goes on with is always present |
| ChatTurn.EnsureThread | src/core/EventHandler.ts:402-417 | a thread id the turn goes on with is always present, whether kept or newly created |
| ChatTurn.UploadAll | src/core/EventHandler.ts:422-438 | one result per file context |
| ChatTurn.AllUploaded | src/core/EventHandler.ts:422-438 | the file ids when every upload succeeded, otherwise the failure of the first upload that failed |
| ChatTurn.OnEvent | src/core/EventHandler.ts:478-569 | every stream callback keeps the active turn present |
| ChatTurn.OnEvents | src/core/EventHandler.ts:473-569 | the events handled in arrival order keep the active turn present |
| Orchestrator.ToastFor | src/core/EventHandler.ts:114-124 | one notification with the text for "success", "warning" or "error", and none for any other type |
| Orchestrator.Cancelled | src/core/EventHandler.ts:328-333 | cancelling never adds or removes the run and keeps its thread |
| Orchestrator.CancelledSpec | src/core/EventHandler.ts:328-333 | the run is aborted exactly when a run and a client exist, and cancelling twice is cancelling once |
| Orchestrator.EventHandler.constructor | src/core/EventHandler.ts:12-32 | a new handler has no client, no selections, no run, and has posted, called, shown and handed on nothing |
| Orchestrator.EventHandler.UpdateConversation | src/core/EventHandler.ts:873-899 | the host becomes the persist function's state: the conversation merged into the last entry of the account in place, that entry's record stored at the first, and the conversation posted; nothing else changed |
| Orchestrator.EventHandler.PostAccounts | src/core/EventHandler.ts:933-945 | the handler state becomes the posted-accounts state |
| Orchestrator.EventHandler.CreateAccount | src/core/EventHandler.ts:978-985 | the handler state becomes the stored-account state |
| Orchestrator.EventHandler.DeleteAccount | src/core/EventHandler.ts:987-990 | the handler state becomes the deleted-account state |
| Orchestrator.EventHandler.DeleteConversation | src/core/EventHandler.ts:901-924 | the handler state becomes the removed-conversation state |
| Orchestrator.EventHandler.CreateNewConversation | src/core/EventHandler.ts:964-976 | the handler state becomes the added-conversation state |
| Orchestrator.EventHandler.CancelCurrentRun | src/core/EventHandler.ts:328-333 | the handler state becomes the cancelled-run state |
| Orchestrator.EventHandler.InitClient | src/core/EventHandler.ts:947-962 | the handler state becomes the client-requested state |
| Orchestrator.EventHandler.GetConversation | src/core/EventHandler.ts:835-871 | the state and result are the thread check's on the looked-up conversation |
| Orchestrator.EventHandler.CreateThreadFor | src/core/EventHandler.ts:402-417 | the state and result are the new-thread function's |
| Orchestrator.EventHandler.EnsureThreadFor | src/core/EventHandler.ts:402-417 | the state and result are the thread check's of the turn |
| Orchestrator.EventHandler.UploadFileToOpenAI | src/core/EventHandler.ts:652-716 | the state and result are the upload function's: the workspace error, the client error, or one upload call |
| Orchestrator.EventHandler.UploadContextFile | src/core/EventHandler.ts:422-438 | the state and result are the per-context upload function's, the documentation first for "Source Code" |
| Orchestrator.EventHandler.UploadContexts | src/core/EventHandler.ts:422-438 | the state and results are the upload step's, one context after another |
| Orchestrator.EventHandler.CatchError | src/core/EventHandler.ts:572-594 | the state and report are the catch block's |
| Orchestrator.EventHandler.SubmitTurn | src/core/EventHandler.ts:422-471 | the state and report are the submission's: uploads, thread message and run start |
| Orchestrator.EventHandler.ChatTry | src/core/EventHandler.ts:376-594 | the state and report are the try block's |
| Orchestrator.EventHandler.HandleChatMessage | src/core/EventHandler.ts:347-595 | the state and report are the turn function's, nothing outside the turn's part changed |
| Orchestrator.EventHandler.AppendToolCallText | src/core/EventHandler.ts:497-515 | the content followed by the code-interpreter text of the delta |
| Orchestrator.EventHandler.HandleStreamEvent | src/core/EventHandler.ts:478-569 | the state is the one-event function's on the old state |
| Orchestrator.EventHandler.ConsumeStream | src/core/EventHandler.ts:473-569 | the state is the event-sequence function's on the old state |
| Orchestrator.EventHandler.HandleWebviewMessage | src/core/EventHandler.ts:103-193 | the handler state is the dispatch function's for the message |
| Orchestrator.EventHandler.HandleStoreMessage | src/core/EventHandler.ts:125-189 | the handler state is the dispatch function's for a message that goes through the account manager |
| Orchestrator.EventHandler.HandleLocalMessage | src/core/EventHandler.ts:114-191 | the handler state is the dispatch function's for a message that touches only the handler's fields |
| DispatchProperties.DispatchOnlyAppends | src/core/EventHandler.ts:103-193 | no message retracts anything posted, shown or handed on |
| DispatchProperties.OnlyChatReachesService | src/core/EventHandler.ts:103-193 | only a chat message calls the service or touches the stream's turn; no message changes the client |
| DispatchProperties.ChatTouchesOnlyHost | src/core/EventHandler.ts:163-165 | a chat message changes nothing outside the part the turn works on |
| DispatchProperties.UnhandledChangesNothing | src/core/EventHandler.ts:190-191 | a message of an unknown type changes nothing |
| DispatchProperties.RemoveExtensionDataFallsThrough | src/core/EventHandler.ts:176-182 | removing the data is deleting every account and key and clearing the selection, then cancelling the run as "cancelRun" does |
| DispatchProperties.CancelRunSpec | src/core/EventHandler.ts:179-333 | only the run changes; it is aborted exactly when a run and a client exist, and a second cancel changes nothing |
| DispatchProperties.SelectThenInitClient | src/core/EventHandler.ts:156-189 | selecting then initializing posts the new selection once and asks for that account's client twice |
| DispatchProperties.InitClientSpec | src/core/EventHandler.ts:947-962 | the accounts are posted, and a client is asked for exactly when an account is selected, for that account |
| DispatchProperties.CreateAccountSpec | src/core/EventHandler.ts:978-985 | the record without its key sits first for its id; a non-empty key is stored as the secret, an empty one changes no secret |
| DispatchProperties.DeleteAccountSpec | src/core/EventHandler.ts:987-990 | every entry and the key of the account go, other secrets stay, and the selection is cleared exactly when it named the account |
| DispatchProperties.NewConversationPushes | src/core/EventHandler.ts:964-976 | the conversation is pushed onto the webview's copy of the account, which is stored and posted; no selected account changes nothing |
| DispatchProperties.NewConversationKeepsDuplicate | src/core/EventHandler.ts:964-976 | a conversation whose id the account already has ends up stored twice |
| DispatchProperties.DeleteConversationSpec | src/core/EventHandler.ts:901-924 | the id leaves the first account with the account id, every other account stays, and the accounts are posted; an unknown account changes nothing |
| StreamProperties.PrefixTransitive | src/core/EventHandler.ts:482-492 | the prefix order is transitive |
| StreamProperties.UpdatesForAppend | src/core/EventHandler.ts:482-515 | the updates for a message split over concatenated notifications |
| StreamProperties.UpdatesForOne | src/core/EventHandler.ts:482-515 | one notification contributes its content exactly when it updates the message |
| StreamProperties.NoMessageUpdates | src/core/EventHandler.ts:478-569 | notifications that are not message updates contribute none |
| StreamProperties.StepPlaceholder | src/core/EventHandler.ts:478-569 | one event appends its text to the placeholder and changes no other field of it, the account or the conversation besides its messages |
| StreamProperties.StepSent | src/core/EventHandler.ts:478-569 | one event only appends notifications, with at most one update of the placeholder, carrying its new content |
| StreamProperties.QuietEventSent | src/core/EventHandler.ts:478-569 | creation, end and error events post no message update |
| StreamProperties.UpdatingEventSent | src/core/EventHandler.ts:482-533 | the delta and step events post at most one notification, and an update of the placeholder carries its new content |
| StreamProperties.StepMessages | src/core/EventHandler.ts:478-569 | one event adds at most one message, an error notice or on end the non-empty placeholder |
| StreamProperties.StreamPlaceholder | src/core/EventHandler.ts:473-569 | over any event sequence the placeholder's content is its start followed by the delta texts in arrival order |
| StreamProperties.ChainAppend | src/core/EventHandler.ts:482-515 | a prefix chain stays one when its new upper bound is appended |
| StreamProperties.BetweenWiden | src/core/EventHandler.ts:482-515 | raising the upper bound keeps entries in bounds |
| StreamProperties.ChainStep | src/core/EventHandler.ts:482-515 | a chain stays one when at most one update with the new bound follows |
| StreamProperties.StreamUpdatesArePrefixes | src/core/EventHandler.ts:473-569 | each posted update of the placeholder extends the previous one, all between its initial and final content, nothing retracted |
| StreamProperties.StreamMessagesAppendOnly | src/core/EventHandler.ts:473-569 | the conversation keeps its messages, and each one added is an error notice or a non-empty placeholder snapshot added on end |
| StreamProperties.StreamWithoutEnd | src/core/EventHandler.ts:516-569 | without an end event only error notices are added |
| StreamProperties.EndPersists | src/core/EventHandler.ts:535-542 | end switches typing off, adds the placeholder only with text, and stores the conversation for a known account |
| StreamProperties.ErrorEnd | src/core/EventHandler.ts:535-569 | an error and then end add the error notice and then the placeholder |
| StreamProperties.ErrorThenEnd | src/core/EventHandler.ts:482-569 | text, an error and end add the notice first and the partial reply after it |
| UploadProperties.UploadCalls | src/core/EventHandler.ts:422-438 | one upload call per file context |
| UploadProperties.UploadContextAttempted | src/core/EventHandler.ts:425-716 | with a workspace, a client and documentation, one context makes one upload under its retagged name and answers the service's result |
| UploadProperties.UploadAllAttempted | src/core/EventHandler.ts:422-438 | every context is uploaded in order whatever earlier ones answered, and nothing is posted |
| UploadProperties.UploadAllAnswers | src/core/EventHandler.ts:422-438 | each result is the service's answer for its context |
| UploadProperties.UploadAllWithoutWorkspace | src/core/EventHandler.ts:425-656 | without a workspace nothing is uploaded, each context fails with the workspace error, and only "Source Code" posts it |
| UploadProperties.NamedAppend | src/core/EventHandler.ts:663-668 | a named upload call keeps every call named |
| UploadProperties.UploadContextNamed | src/core/EventHandler.ts:422-668 | one context keeps every upload named by the retagging rule |
| UploadProperties.UploadAllNamed | src/core/EventHandler.ts:422-668 | the upload step keeps every upload named by the retagging rule |
| TurnProperties.SameIdsTransitive | src/core/EventHandler.ts:873-899 | having the same account ids is transitive |
| TurnProperties.SameIdsSameIndex | src/core/EventHandler.ts:873-899 | lists with the same ids agree on an id's first position |
| TurnProperties.PersistKeepsIds | src/core/EventHandler.ts:873-899 | persisting never adds, removes or reorders accounts |
| TurnProperties.PersistStores | src/core/EventHandler.ts:873-899 | persisting for a known account leaves the conversation held by that account and posts it |
| TurnProperties.PersistGrows | src/core/EventHandler.ts:873-899 | persisting only extends the host and makes no call |
| TurnProperties.GrowsTransitive | src/core/EventHandler.ts:347-595 | extending the host is transitive |
| TurnProperties.ProbeGrows | src/core/EventHandler.ts:857-868 | the lookup's thread check only extends the host and changes nothing of the conversation but its thread |
| TurnProperties.ProbeNamed | src/core/EventHandler.ts:857-868 | the lookup's thread check keeps every upload named |
| TurnProperties.NewThreadGrows | src/core/EventHandler.ts:402-417 | a new thread makes one call, extends the host and changes only the thread id |
| TurnProperties.EnsureThreadGrows | src/core/EventHandler.ts:402-417 | the turn's thread check extends the host and changes only the thread id |
| TurnProperties.EnsureThreadNamed | src/core/EventHandler.ts:402-417 | the turn's thread check keeps every upload named |
| TurnProperties.UploadAllFrame | src/core/EventHandler.ts:422-438 | the upload step touches neither the store nor the run, and only appends |
| TurnProperties.CatchPathStores | src/core/EventHandler.ts:572-594 | the catch block reports the conversation with the error notice, stores it for a known account and switches typing off last |
| TurnProperties.TurnKeepsAccounts | src/core/EventHandler.ts:347-595 | a turn never adds, removes or reorders accounts, and only appends to what it posts |
| TurnProperties.CatchPathOutcome | src/core/EventHandler.ts:572-594 | the catch block ends the turn in one of the two outcomes |
| TurnProperties.SubmitOutcome | src/core/EventHandler.ts:422-471 | the submission ends the turn in one of the two outcomes |
| TurnProperties.TryBlockOutcome | src/core/EventHandler.ts:376-594 | the try block ends the turn started on the conversation with the user message, or failed with the notice stored and typing off |
| TurnProperties.TurnWithoutClient | src/core/EventHandler.ts:362-368 | the turn ends for want of a client exactly when there is none, and then only posts the error |
| TurnProperties.TurnStarted | src/core/EventHandler.ts:347-471 | a started turn has the user message added, runs on the conversation's thread, records the run unaborted and the empty placeholder |
| TurnProperties.TurnFailed | src/core/EventHandler.ts:347-595 | a failed turn adds the user message and one error notice, stores them for a known account, keeps the run and switches typing off last |
| TurnProperties.TurnKeepsLiveThread | src/core/EventHandler.ts:402-868 | a thread retrieved both times is the one the run starts on |
| TurnProperties.TurnCreatesThread | src/core/EventHandler.ts:402-417 | a conversation without a thread runs on the one created for it |
| TurnProperties.TurnReplacesLostThread | src/core/EventHandler.ts:372-868 | a thread lost since the last turn is replaced by the lookup's new one, and the turn ends when that fails |
| TurnProperties.ProbeReplaces | src/core/EventHandler.ts:857-868 | a lost thread is kept replaced exactly when a new one is created |
| TurnProperties.TryBlockKeepsThread | src/core/EventHandler.ts:402-417 | a retrieved thread is the one the run starts on |
| TurnProperties.SubmitStarted | src/core/EventHandler.ts:422-471 | a started submission reports the conversation it was given |
| TurnProperties.SubmitNamed | src/core/EventHandler.ts:422-471 | the submission keeps every upload named |
| TurnProperties.TryBlockNamed | src/core/EventHandler.ts:376-594 | the try block keeps every upload named |
| TurnProperties.TurnUploadsNamed | src/core/EventHandler.ts:347-595 | a turn uploads every file under the name the retagging rule gives its path |

## Left out

- The webview view is taken to be registered: posting to the webview is appending to a log, and the theme updates and the `registerWebviewMessageHandler` plumbing are not modelled.
- Calls to the OpenAI service are not modelled; their answers are inputs. This covers thread retrieval and creation, messages, runs and their stream, file uploads and the listing of models and assistants.
- `initializeOpenAIClient` and `refreshModelsAndAssistants` (src/core/EventHandler.ts:195-326) work only through the service. The host hands them on as deferred work. The unconditional throw at line 218 is therefore not modelled.
- The legacy run polling loop (src/EventHandler.ts:185-195) is folded into one outcome value of the run: failed, or the newest message.
- The workspace walk `getWorkspaceFiles` and the documentation generator `generateMarkdownContent` depend on the editor's file system, gitignore matching and binary-file sniffing. The file list is a parameter.
- `generateDocs`: its workspace check and its two error posts are modelled; writing the documentation file is not. Its result path is an input.
- "openFile" only hands the path on to open an editor, so the model records that request and nothing more.
- Reading a file before upload is not modelled: a file that cannot be read is one more failed upload outcome.
- Concurrency is not modelled. The uploads of `Promise.all` run one after another in context order, and the combined result is the first failure in that order. Abort signals are not propagated into the stream: an aborted run is a flag. Stream callbacks never interleave with other messages.
- Toasts are recorded as a log of notifications; showing them is not modelled.
- Conversation and account objects are values. The in-place edits the source makes through shared references are modelled as their effect on the stored list. This includes the edits through the list `getAccounts` hands out: the legacy handler's edit of the held conversation, and `updateConversation`'s assignment to the conversations of the account its map returns (`AccountStore.AccountManager.SetStoredConversations`).
- The account manager's two stores are owned by the manager. A store aliased by other code is not modelled.
- The legacy secret store writes whatever `storeAccount` is given. An `undefined` key is modelled as an absent value.
- The legacy `handleWebviewMessage` switch, `handleUpload` and `createNewConversation` (src/EventHandler.ts:40-71, 317-330) are not modelled: the last two only log, and the switch only forwards to the operations modelled above.
- React rendering, JSX, the clipboard, scrolling, stale closures and the timing of effects are not modelled. An effect runs when its dependencies change, as a method call.
- Fresh ids (`crypto.randomUUID`, `uuidv4`) and clock readings (`new Date()`) are parameters.
- The single-effect action creators of the provider are covered by their reducer cases and by the message protocol, not by a member each. These are `setNewAccountName`, `setNewAccountApiKey`, `dismissError`, `setCurrentConversation`, `handleCancelRun`, `requestWorkspaceFiles`, `openFile`, `toggleFullScreen`, `displayToastMessage` and `dismissOpenAIClientStatus`; each issues one dispatch or one send.
- Text.StripTrailingSlashesSpec: only "/" counts as a separator. Paths are taken to be POSIX paths, as Node's `path` module treats them on Linux and macOS hosts; on a Windows host `path.basename` also strips trailing "\\" characters.
- Text.BasenameHasNoSlash: the base name is split at "/" only, for the same reason. On a Windows host `path.relative` yields "\\"-separated paths and `path.basename` also splits at "\\" and after a drive letter, so a context "src\\a.ts" would be uploaded as "a.ts" there but is "src\\a.ts" in this model. The same POSIX reading applies to `FileContext.UploadName` and `Text.Extname`. The `split("/")` that names attachments uses "/" on every host and is modelled as written.
- Text.Lower: lower-cases ASCII letters only; JavaScript's `toLowerCase` also folds other scripts.
- FileContext.FinalFileNameAllowed: stated for a non-empty base name only. An empty base name becomes ".txt", whose extension is empty, as `FileContext.EmptyNameRetagged` shows.
- FileContext.FinalFileNameIdempotent: stated for a non-empty name, for the same reason.
