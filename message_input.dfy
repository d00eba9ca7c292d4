/** The chat input box of the webview (`MessageInput`): the typed message, the list of context
    items attached to it, the file search of the context dialog and the settings dialog's
    temporary choices. Its props (the workspace files, the current selections) are
    parameters; the callbacks it was given are recorded as calls. */
module MessageInput {
  import opened Types
  import opened Text

  /** A call the box makes on a callback it was given. */
  datatype PropCall =
    | SendMessageCall(message: string, context: seq<ContextItem>)
    | SetSelectedAssistantCall(assistantId: string)
    | SetSelectedModelCall(modelId: string)
    | RequestWorkspaceFilesCall

  /** The box's state: its `useState` variables and the calls made so far. */
  datatype InputView = InputView(
    message: string,
    contextItems: seq<ContextItem>,
    newContextItem: string,
    filteredFiles: seq<string>,
    tempSelectedAssistant: string,
    tempSelectedModel: string,
    isSettingsDialogOpen: bool,
    isContextDialogOpen: bool,
    calls: seq<PropCall>)

  /** The item "add source code" attaches. */
  const SOURCE_CODE: ContextItem := ContextItem(SourceCodeItem, "Source Code")

  /** No two 'file' items share a name. */
  predicate UniqueFiles(items: seq<ContextItem>) {
    forall i, j :: 0 <= i < j < |items| && items[i].kind == FileItem && items[j].kind == FileItem ==> items[i].name != items[j].name
  }

  /** `contextItems.some(item => item.type === "file" && item.name === file)`. */
  predicate HasFile(items: seq<ContextItem>, file: string) {
    exists k :: 0 <= k < |items| && items[k] == ContextItem(FileItem, file)
  }

  // ---------------------------------------------------------------- handlers, on the state

  /** `handleSendMessage`: a message that is not blank once trimmed is handed on with the
      context items, untrimmed, and both are cleared. */
  function Send(v: InputView): InputView {
    if IsBlank(v.message) then v
    else v.(calls := v.calls + [SendMessageCall(v.message, v.contextItems)], message := "", contextItems := [])
  }

  /** `handleInputKeyPress`: Enter without Shift sends, "@" opens the context dialog, any
      other key is left to the text area. */
  function KeyPress(v: InputView, key: string, shiftKey: bool): InputView {
    if key == "Enter" && !shiftKey then Send(v)
    else if key == "@" then v.(isContextDialogOpen := true)
    else v
  }

  /** `handleSettingsDialogClose(save)`: saving hands the temporary choices on, cancelling
      resets them to the current selections; either way the dialog closes. */
  function SettingsDialogClose(v: InputView, save: bool, selectedAssistant: string, selectedModel: string): InputView {
    if save then
      v.(calls := v.calls + [SetSelectedAssistantCall(v.tempSelectedAssistant), SetSelectedModelCall(v.tempSelectedModel)],
         isSettingsDialogOpen := false)
    else
      v.(tempSelectedAssistant := selectedAssistant, tempSelectedModel := selectedModel, isSettingsDialogOpen := false)
  }

  /** `handleAddContext(file)`: a file already attached is not attached again; the search
      text is cleared either way. */
  function AddContext(v: InputView, file: string): InputView {
    v.(contextItems := if HasFile(v.contextItems, file) then v.contextItems else v.contextItems + [ContextItem(FileItem, file)],
       newContextItem := "")
  }

  /** `handleAddSourceCode`: the source-code item is always attached, and the dialog closes. */
  function AddSourceCode(v: InputView): InputView {
    v.(contextItems := v.contextItems + [SOURCE_CODE], isContextDialogOpen := false)
  }

  /** `prev.filter((_, i) => i !== index)`. */
  function WithoutIndex(items: seq<ContextItem>, index: int): (r: seq<ContextItem>)
    ensures 0 <= index < |items| ==> |r| == |items| - 1
    ensures 0 <= index < |items| ==> forall k :: 0 <= k < |r| ==> r[k] == (if k < index then items[k] else items[k + 1])
    ensures !(0 <= index < |items|) ==> r == items
  {
    if 0 <= index < |items| then items[..index] + items[index + 1..] else items
  }

  /** `handleRemoveContext(index)`. */
  function RemoveContext(v: InputView, index: int): InputView {
    v.(contextItems := WithoutIndex(v.contextItems, index))
  }

  /** The files whose lower-cased name contains the lower-cased search text, in order. */
  function Matching(files: seq<string>, value: string): seq<string>
    decreases |files|
  {
    if files == [] then []
    else (if Contains(Lower(files[0]), Lower(value)) then [files[0]] else []) + Matching(files[1..], value)
  }

  /** The file list of the context dialog for a search text: every file while the text is
      blank once trimmed. */
  function FilterFiles(files: seq<string>, value: string): seq<string> {
    if IsBlank(value) then files else Matching(files, value)
  }

  /** `handleNewContextItemChange(value)`. */
  function NewContextItemChange(v: InputView, value: string, files: seq<string>): InputView {
    v.(newContextItem := value, filteredFiles := FilterFiles(files, value))
  }

  /** The effect that shows every file again whenever the workspace files change. */
  function FilesChanged(v: InputView, files: seq<string>): InputView {
    v.(filteredFiles := files)
  }

  // ---------------------------------------------------------------- what the box shows

  /** A model or an assistant as the header and the settings button show it. */
  datatype Shown = Shown(id: string, name: string)

  /** The first model with the id. */
  function FindModel(models: seq<ModelInfo>, id: string): (r: Option<ModelInfo>)
    ensures r.Some? ==> r.value in models && r.value.id == id
    ensures r.None? ==> forall m :: m in models ==> m.id != id
  {
    var i := FirstIndex(models, (m: ModelInfo) => m.id, id);
    if i >= 0 then Some(models[i]) else None
  }

  /** The first assistant with the id. */
  function FindAssistant(assistants: seq<AssistantInfo>, id: string): (r: Option<AssistantInfo>)
    ensures r.Some? ==> r.value in assistants && r.value.id == id
    ensures r.None? ==> forall a :: a in assistants ==> a.id != id
  {
    var i := FirstIndex(assistants, (a: AssistantInfo) => a.id, id);
    if i >= 0 then Some(assistants[i]) else None
  }

  /** `selectedModelDetails`. */
  function ShownModel(models: seq<ModelInfo>, selectedModel: string): Shown {
    if models == [] then Shown("", "⚠️ No models available")
    else match FindModel(models, selectedModel)
      case Some(m) => Shown(m.id, m.name)
      case None => Shown(models[0].id, models[0].name)
  }

  /** `selectedAssistantDetails`. */
  function ShownAssistant(assistants: seq<AssistantInfo>, selectedAssistant: string): Shown {
    if assistants == [] then Shown("", "⚠️ No assistants available")
    else match FindAssistant(assistants, selectedAssistant)
      case Some(a) => Shown(a.id, a.name)
      case None => Shown(assistants[0].id, assistants[0].name)
  }

  /** `isSendDisabled`. */
  predicate SendDisabled(disabled: bool, message: string, selectedModel: string, selectedAssistant: string, isAssistantTyping: bool) {
    disabled || IsBlank(message) || selectedModel == "" || selectedAssistant == "" || isAssistantTyping
  }

  // ---------------------------------------------------------------- the component

  /** A mounted `MessageInput`. */
  class InputBox {
    var message: string
    var contextItems: seq<ContextItem>
    var newContextItem: string
    var filteredFiles: seq<string>
    var tempSelectedAssistant: string
    var tempSelectedModel: string
    var isSettingsDialogOpen: bool
    var isContextDialogOpen: bool
    var calls: seq<PropCall>

    function Snapshot(): InputView
      reads this
    {
      InputView(message, contextItems, newContextItem, filteredFiles, tempSelectedAssistant, tempSelectedModel,
                isSettingsDialogOpen, isContextDialogOpen, calls)
    }

    /** Mounting: empty message and context, the temporary choices taken from the current
        selections, every file listed, and the workspace files requested. */
    constructor (files: seq<string>, selectedAssistant: string, selectedModel: string)
      ensures Snapshot() == InputView("", [], "", files, selectedAssistant, selectedModel, false, false, [RequestWorkspaceFilesCall])
    {
      message := "";
      contextItems := [];
      newContextItem := "";
      filteredFiles := files;
      tempSelectedAssistant := selectedAssistant;
      tempSelectedModel := selectedModel;
      isSettingsDialogOpen := false;
      isContextDialogOpen := false;
      calls := [RequestWorkspaceFilesCall];
    }

    /** Typing in the text area. */
    method SetMessage(text: string)
      modifies this
      ensures Snapshot() == old(Snapshot()).(message := text)
    {
      message := text;
    }

    method HandleSendMessage()
      modifies this
      ensures Snapshot() == Send(old(Snapshot()))
    {
      if !IsBlank(message) {
        calls := calls + [SendMessageCall(message, contextItems)];
        message := "";
        contextItems := [];
      }
    }

    method HandleInputKeyPress(key: string, shiftKey: bool)
      modifies this
      ensures Snapshot() == KeyPress(old(Snapshot()), key, shiftKey)
    {
      if key == "Enter" && !shiftKey {
        HandleSendMessage();
      } else if key == "@" {
        isContextDialogOpen := true;
      }
    }

    /** Clicking a model in the settings dialog makes it the temporary choice. */
    method SetTempSelectedModel(modelId: string)
      modifies this
      ensures Snapshot() == old(Snapshot()).(tempSelectedModel := modelId)
    {
      tempSelectedModel := modelId;
    }

    /** Clicking an assistant in the settings dialog makes it the temporary choice. */
    method SetTempSelectedAssistant(assistantId: string)
      modifies this
      ensures Snapshot() == old(Snapshot()).(tempSelectedAssistant := assistantId)
    {
      tempSelectedAssistant := assistantId;
    }

    /** The settings button and the dialog's own close control. */
    method SetSettingsDialogOpen(open: bool)
      modifies this
      ensures Snapshot() == old(Snapshot()).(isSettingsDialogOpen := open)
    {
      isSettingsDialogOpen := open;
    }

    /** The "Add Context" button and the context dialog's own close control. */
    method SetContextDialogOpen(open: bool)
      modifies this
      ensures Snapshot() == old(Snapshot()).(isContextDialogOpen := open)
    {
      isContextDialogOpen := open;
    }

    method HandleSettingsDialogClose(save: bool, selectedAssistant: string, selectedModel: string)
      modifies this
      ensures Snapshot() == SettingsDialogClose(old(Snapshot()), save, selectedAssistant, selectedModel)
    {
      if save {
        calls := calls + [SetSelectedAssistantCall(tempSelectedAssistant)];
        calls := calls + [SetSelectedModelCall(tempSelectedModel)];
      } else {
        tempSelectedAssistant := selectedAssistant;
        tempSelectedModel := selectedModel;
      }
      isSettingsDialogOpen := false;
    }

    method HandleAddContext(file: string)
      modifies this
      ensures Snapshot() == AddContext(old(Snapshot()), file)
    {
      if !HasFile(contextItems, file) {
        contextItems := contextItems + [ContextItem(FileItem, file)];
      }
      newContextItem := "";
    }

    method HandleAddSourceCode()
      modifies this
      ensures Snapshot() == AddSourceCode(old(Snapshot()))
    {
      contextItems := contextItems + [SOURCE_CODE];
      isContextDialogOpen := false;
    }

    method HandleRemoveContext(index: int)
      modifies this
      ensures Snapshot() == RemoveContext(old(Snapshot()), index)
    {
      contextItems := WithoutIndex(contextItems, index);
    }

    method HandleNewContextItemChange(value: string, files: seq<string>)
      modifies this
      ensures Snapshot() == NewContextItemChange(old(Snapshot()), value, files)
    {
      newContextItem := value;
      filteredFiles := FilterFiles(files, value);
    }

    method OnFilesChanged(files: seq<string>)
      modifies this
      ensures Snapshot() == FilesChanged(old(Snapshot()), files)
    {
      filteredFiles := files;
    }
  }
}
