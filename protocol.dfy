/** The messages the extension host and the webview post to each other, the remote calls the
    host makes, and the events of an assistant run stream. */
module Protocol {
  import opened Types

  /** The payload of "sendChatMessage". The names are absent when the webview found no
      assistant or model with the selected id. */
  datatype ChatPayload = ChatPayload(
    accountId: string,
    conversationId: string,
    message: string,
    assistantId: string,
    assistantName: Option<string>,
    modelId: string,
    modelName: Option<string>,
    fileContexts: seq<string>)

  /** Commands the extension host posts to the webview. */
  datatype HostMessage =
    | UpdateTypingStatus(isTyping: bool)
    | UpdateConversation(conversation: Conversation, accountId: Option<string>)
    | UpdateMessage(messageId: string, content: string, modelName: Option<string>,
                    assistantName: Option<string>, timestamp: Option<string>)
    | ToolCall(toolType: string)
    | ErrorMessage(message: string)
    | UpdateAccounts(accounts: seq<Account>, selectedAccountId: Option<string>)
    | UpdateWorkspaceFiles(files: seq<string>)
    | UpdateLists(assistants: seq<AssistantInfo>, models: seq<ModelInfo>)
    | RefreshError(message: string)
    | ClientConnecting
    | ClientConnected
    | ClientError(reason: Option<string>)
    | AssistantsRetrieved(count: int)
    | ModelsRetrieved(count: int)
    | ClientDone
    | ConversationDeleted(deletedFrom: string, conversationId: string)

  /** Messages the webview posts to the extension host, by their `type`. */
  datatype WebviewMessage =
    | ShowToast(toastType: string, text: string)
    | NewConversation(selectedAccount: Option<Account>, newConversation: Conversation)
    | CreateAccount(account: Account)
    | DeleteAccount(deletedAccountId: string)
    | DeleteConversation(ownerId: string, deletedConversationId: string)
    | GetAccounts
    | OpenFile(filePath: string)
    | SelectAccount(selectedId: string)
    | RefreshModelsAndAssistants
    | SendChatMessage(payload: ChatPayload)
    | UpdateAssistant(assistantId: string)
    | UpdateModel(modelId: string)
    | RemoveExtensionData
    | CancelRun
    | GetWorkspaceFiles
    | InitClient
    | Unhandled(messageType: string)

  /** Requests the host makes to the OpenAI service, in the order it makes them. */
  datatype RemoteCall =
    | RetrieveThread(threadId: string)
    | CreateThread
    | UploadFile(path: string, uploadName: string)
    | CreateThreadMessage(threadId: string, content: string, fileIds: seq<string>)
    | StreamRun(threadId: string, assistantId: string, modelId: string)

  /** One output of a code-interpreter tool call delta. */
  datatype ToolOutput = ToolOutput(outputType: string, logs: Option<string>)

  /** The `code_interpreter` part of a tool call delta. */
  datatype CodeInterpreter = CodeInterpreter(input: Option<string>, outputs: Option<seq<ToolOutput>>)

  /** The events of an assistant run stream the host subscribes to. A `TextDelta` may come
      without a value. A `StreamError` carries the error's message when the error is an
      `Error`, and None otherwise. */
  datatype StreamEvent =
    | TextCreated
    | TextDelta(value: Option<string>)
    | ToolCallCreated(toolType: string)
    | ToolCallDelta(deltaType: string, codeInterpreter: Option<CodeInterpreter>)
    | RunStepDone(lastError: Option<string>)
    | ToolCallDone
    | End
    | StreamError(errorMessage: Option<string>)
}
