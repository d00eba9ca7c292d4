/** What the input box guarantees: when a message is handed on, how the context list can
    change, how the file search matches, and which model and assistant the box shows. */
module MessageInputProperties {
  import opened Types
  import opened Text
  import opened MessageInput

  /** A message is handed on exactly when it is not blank; then it goes with the context
      items as they were, and the message and the list are empty afterwards. Nothing else
      changes. */
  lemma SendSpec(v: InputView)
    ensures var r := Send(v);
      && (r.calls != v.calls <==> !IsBlank(v.message))
      && (!IsBlank(v.message) ==>
            && r.calls == v.calls + [SendMessageCall(v.message, v.contextItems)]
            && r.message == "" && r.contextItems == []
            && r.(message := v.message, contextItems := v.contextItems, calls := v.calls) == v)
      && (IsBlank(v.message) ==> r == v)
  {
  }

  /** When the send button is enabled, pressing it hands the message on. */
  lemma EnabledButtonSends(v: InputView, disabled: bool, selectedModel: string, selectedAssistant: string, isAssistantTyping: bool)
    requires !SendDisabled(disabled, v.message, selectedModel, selectedAssistant, isAssistantTyping)
    ensures Send(v).calls == v.calls + [SendMessageCall(v.message, v.contextItems)]
  {
  }

  /** Enter without Shift is a send; Shift+Enter and ordinary keys change nothing; "@" only
      opens the context dialog. */
  lemma KeyPressSpec(v: InputView, key: string, shiftKey: bool)
    ensures key == "Enter" && !shiftKey ==> KeyPress(v, key, shiftKey) == Send(v)
    ensures key == "Enter" && shiftKey ==> KeyPress(v, key, shiftKey) == v
    ensures key == "@" ==> KeyPress(v, key, shiftKey) == v.(isContextDialogOpen := true)
    ensures key != "Enter" && key != "@" ==> KeyPress(v, key, shiftKey) == v
  {
  }

  /** Adding a file clears the search text, leaves the file attached, and attaches it only
      when it was not: the list grows by that one item or not at all. */
  lemma AddContextSpec(v: InputView, file: string)
    ensures var r := AddContext(v, file);
      && r.newContextItem == ""
      && HasFile(r.contextItems, file)
      && (HasFile(v.contextItems, file) ==> r.contextItems == v.contextItems)
      && (!HasFile(v.contextItems, file) ==> r.contextItems == v.contextItems + [ContextItem(FileItem, file)])
  {
    var r := AddContext(v, file);
    if !HasFile(v.contextItems, file) {
      assert r.contextItems[|v.contextItems|] == ContextItem(FileItem, file);
    }
  }

  /** So no sequence of file additions attaches a name twice. */
  lemma AddContextKeepsFilesUnique(v: InputView, file: string)
    requires UniqueFiles(v.contextItems)
    ensures UniqueFiles(AddContext(v, file).contextItems)
  {
    var items := AddContext(v, file).contextItems;
    if !HasFile(v.contextItems, file) {
      forall i, j | 0 <= i < j < |items| && items[i].kind == FileItem && items[j].kind == FileItem
        ensures items[i].name != items[j].name
      {
        if j == |v.contextItems| {
          assert items[i] == v.contextItems[i];
        }
      }
    }
  }

  /** The source-code item is appended every time, so two additions attach it twice; it never
      breaks the uniqueness of file names. */
  lemma AddSourceCodeSpec(v: InputView)
    ensures AddSourceCode(v).contextItems == v.contextItems + [SOURCE_CODE]
    ensures !AddSourceCode(v).isContextDialogOpen
    ensures var items := AddSourceCode(AddSourceCode(v)).contextItems;
      |items| == |v.contextItems| + 2 && items[|items| - 2] == items[|items| - 1] == SOURCE_CODE
    ensures UniqueFiles(v.contextItems) ==> UniqueFiles(AddSourceCode(v).contextItems)
  {
  }

  /** Removing at an index keeps the other items in order and keeps file names unique. */
  lemma RemoveContextKeepsFilesUnique(v: InputView, index: int)
    requires UniqueFiles(v.contextItems)
    ensures UniqueFiles(RemoveContext(v, index).contextItems)
  {
    var items := RemoveContext(v, index).contextItems;
    if 0 <= index < |v.contextItems| {
      forall i, j | 0 <= i < j < |items| && items[i].kind == FileItem && items[j].kind == FileItem
        ensures items[i].name != items[j].name
      {
        var i' := if i < index then i else i + 1;
        var j' := if j < index then j else j + 1;
        assert items[i] == v.contextItems[i'] && items[j] == v.contextItems[j'];
      }
    }
  }

  /** Removing the item just attached undoes the attachment. */
  lemma RemoveUndoesAdd(v: InputView, file: string)
    ensures var n := |v.contextItems|;
      RemoveContext(AddSourceCode(v), n).contextItems == v.contextItems
      && (!HasFile(v.contextItems, file) ==> RemoveContext(AddContext(v, file), n).contextItems == v.contextItems)
  {
    var n := |v.contextItems|;
    assert (v.contextItems + [SOURCE_CODE])[..n] == v.contextItems;
    assert (v.contextItems + [ContextItem(FileItem, file)])[..n] == v.contextItems;
  }

  /** The files that match a search text are those of the list whose lower-cased name
      contains the lower-cased text, at most as many as there are files. */
  lemma {:induction false} MatchingSpec(files: seq<string>, value: string)
    ensures |Matching(files, value)| <= |files|
    ensures forall f :: f in Matching(files, value) <==> f in files && Contains(Lower(f), Lower(value))
    decreases |files|
  {
    if files != [] {
      MatchingSpec(files[1..], value);
      assert files == [files[0]] + files[1..];
    }
  }

  /** The search lists every file for a blank text, and otherwise exactly the files that
      contain it, ignoring case. */
  lemma FilterFilesSpec(files: seq<string>, value: string)
    ensures IsBlank(value) ==> FilterFiles(files, value) == files
    ensures !IsBlank(value) ==>
      forall f :: f in FilterFiles(files, value) <==> f in files && Contains(Lower(f), Lower(value))
  {
    MatchingSpec(files, value);
  }

  lemma LowerTwice(s: string)
    ensures Lower(Lower(s)) == Lower(s)
  {
    assert forall i :: 0 <= i < |s| ==> LowerChar(LowerChar(s[i])) == LowerChar(s[i]);
  }

  /** The search does not see the case of the text: typing it in lower case lists the same
      files. */
  lemma FilterIgnoresCase(files: seq<string>, value: string)
    ensures FilterFiles(files, Lower(value)) == FilterFiles(files, value)
  {
    assert IsBlank(Lower(value)) == IsBlank(value) by {
      assert forall i :: 0 <= i < |value| ==> (IsSpace(Lower(value)[i]) <==> IsSpace(value[i]));
    }
    LowerTwice(value);
    MatchingSameText(files, value);
  }

  lemma {:induction false} MatchingSameText(files: seq<string>, value: string)
    ensures Matching(files, Lower(value)) == Matching(files, value)
    decreases |files|
  {
    if files != [] {
      LowerTwice(value);
      MatchingSameText(files[1..], value);
    }
  }

  /** The model shown is the first one with the selected id; without one, the first model;
      without models, a placeholder whose id is empty. */
  lemma ShownModelSpec(models: seq<ModelInfo>, selectedModel: string)
    ensures models == [] ==> ShownModel(models, selectedModel).id == ""
    ensures (exists m :: m in models && m.id == selectedModel) ==> ShownModel(models, selectedModel).id == selectedModel
    ensures models != [] && (forall m :: m in models ==> m.id != selectedModel) ==>
      ShownModel(models, selectedModel) == Shown(models[0].id, models[0].name)
    ensures models != [] ==> exists m :: m in models && ShownModel(models, selectedModel) == Shown(m.id, m.name)
  {
    if models != [] {
      match FindModel(models, selectedModel)
      case Some(m) =>
      case None => assert models[0] in models;
    }
  }

  /** The assistant shown follows the same rule. */
  lemma ShownAssistantSpec(assistants: seq<AssistantInfo>, selectedAssistant: string)
    ensures assistants == [] ==> ShownAssistant(assistants, selectedAssistant).id == ""
    ensures (exists a :: a in assistants && a.id == selectedAssistant) ==> ShownAssistant(assistants, selectedAssistant).id == selectedAssistant
    ensures assistants != [] && (forall a :: a in assistants ==> a.id != selectedAssistant) ==>
      ShownAssistant(assistants, selectedAssistant) == Shown(assistants[0].id, assistants[0].name)
    ensures assistants != [] ==> exists a :: a in assistants && ShownAssistant(assistants, selectedAssistant) == Shown(a.id, a.name)
  {
    if assistants != [] {
      match FindAssistant(assistants, selectedAssistant)
      case Some(a) =>
      case None => assert assistants[0] in assistants;
    }
  }

  /** Saving the settings hands on the temporary choices and keeps them; cancelling puts the
      current selections back and hands nothing on. Both close the dialog. */
  lemma SettingsDialogSpec(v: InputView, selectedAssistant: string, selectedModel: string)
    ensures var r := SettingsDialogClose(v, true, selectedAssistant, selectedModel);
      && r.calls == v.calls + [SetSelectedAssistantCall(v.tempSelectedAssistant), SetSelectedModelCall(v.tempSelectedModel)]
      && r.tempSelectedAssistant == v.tempSelectedAssistant && r.tempSelectedModel == v.tempSelectedModel
      && !r.isSettingsDialogOpen
    ensures var r := SettingsDialogClose(v, false, selectedAssistant, selectedModel);
      && r.calls == v.calls
      && r.tempSelectedAssistant == selectedAssistant && r.tempSelectedModel == selectedModel
      && !r.isSettingsDialogOpen
  {
  }

  /** Choosing a model and an assistant in the dialog and saving hands exactly those
      choices on, whatever the current selections are. */
  lemma ChooseThenSave(v: InputView, assistantId: string, modelId: string, selectedAssistant: string, selectedModel: string)
    ensures var r := SettingsDialogClose(v.(tempSelectedAssistant := assistantId, tempSelectedModel := modelId), true, selectedAssistant, selectedModel);
      && r.calls == v.calls + [SetSelectedAssistantCall(assistantId), SetSelectedModelCall(modelId)]
      && !r.isSettingsDialogOpen
  {
  }

  /** So saving after a cancel hands on the selections that were current: a cancelled
      choice never reaches the global state. */
  lemma CancelThenSaveKeepsSelection(v: InputView, selectedAssistant: string, selectedModel: string)
    ensures var r := SettingsDialogClose(SettingsDialogClose(v, false, selectedAssistant, selectedModel), true, selectedAssistant, selectedModel);
      r.calls == v.calls + [SetSelectedAssistantCall(selectedAssistant), SetSelectedModelCall(selectedModel)]
  {
  }
}
