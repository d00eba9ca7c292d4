/** What the upload step of a chat turn guarantees: which files go up, under which names, and
    what the step reports without a workspace. */
module UploadProperties {
  import opened Types
  import opened FileContext
  import opened Protocol
  import opened ChatTurn

  /** The workspace-relative path a file context is uploaded from. */
  function ResolvedPath(context: string, env: TurnEnv): string
    requires env.docs.Ok?
  {
    if context == SOURCE_CODE then env.docs.value else context
  }

  /** The upload calls of a list of file contexts, in order. */
  function UploadCalls(contexts: seq<string>, env: TurnEnv): (r: seq<RemoteCall>)
    requires env.docs.Ok?
    ensures |r| == |contexts|
    decreases |contexts|
  {
    if contexts == [] then []
    else
      var n := |contexts| - 1;
      var path := ResolvedPath(contexts[n], env);
      UploadCalls(contexts[..n], env) + [UploadFile(path, UploadName(path))]
  }

  /** With a workspace, a client and the documentation generated, one file context makes
      one upload call from its resolved path under its retagged base name, and its result
      is the service's answer. */
  lemma UploadContextAttempted(h: HostState, context: string, outcome: Outcome<string>, env: TurnEnv)
    requires env.workspaceOpen && env.docs.Ok? && h.clientReady
    ensures UploadContext(h, context, outcome, env)
      == (h.(calls := h.calls + [UploadFile(ResolvedPath(context, env), UploadName(ResolvedPath(context, env)))]), outcome)
  {
  }

  /** With a workspace open and the documentation generated, every file context is uploaded
      in order under its retagged base name, whatever an earlier upload answered; nothing
      is posted to the webview. */
  lemma {:induction false} UploadAllAttempted(h: HostState, contexts: seq<string>, outcomes: seq<Outcome<string>>, env: TurnEnv)
    requires |outcomes| == |contexts| && env.workspaceOpen && env.docs.Ok? && h.clientReady
    ensures var r := UploadAll(h, contexts, outcomes, env).0;
      r.calls == h.calls + UploadCalls(contexts, env) && r.clientReady && r.sent == h.sent
    decreases |contexts|
  {
    if contexts != [] {
      var n := |contexts| - 1;
      UploadAllAttempted(h, contexts[..n], outcomes[..n], env);
      var prior := UploadAll(h, contexts[..n], outcomes[..n], env).0;
      UploadContextAttempted(prior, contexts[n], outcomes[n], env);
    }
  }

  /** The upload step never drops the OpenAI client. */
  lemma {:induction false} UploadAllKeepsClient(h: HostState, contexts: seq<string>, outcomes: seq<Outcome<string>>, env: TurnEnv)
    requires |outcomes| == |contexts|
    ensures UploadAll(h, contexts, outcomes, env).0.clientReady == h.clientReady
    decreases |contexts|
  {
    if contexts != [] {
      UploadAllKeepsClient(h, contexts[..|contexts| - 1], outcomes[..|contexts| - 1], env);
    }
  }

  lemma UploadContextAnswer(h: HostState, context: string, outcome: Outcome<string>, env: TurnEnv)
    requires env.workspaceOpen && env.docs.Ok? && h.clientReady
    ensures UploadContext(h, context, outcome, env).1 == outcome
  {
  }

  lemma SnocLast<T>(s: seq<T>)
    requires s != []
    ensures s[..|s| - 1] + [s[|s| - 1]] == s
  {
  }

  /** Each result of the step is the service's answer for that context. */
  lemma {:induction false} UploadAllAnswers(h: HostState, contexts: seq<string>, outcomes: seq<Outcome<string>>, env: TurnEnv)
    requires |outcomes| == |contexts| && env.workspaceOpen && env.docs.Ok? && h.clientReady
    ensures UploadAll(h, contexts, outcomes, env).1 == outcomes
    decreases |contexts|
  {
    if contexts != [] {
      var n := |contexts| - 1;
      var prior := UploadAll(h, contexts[..n], outcomes[..n], env);
      UploadAllKeepsClient(h, contexts[..n], outcomes[..n], env);
      UploadAllAnswers(h, contexts[..n], outcomes[..n], env);
      UploadContextAnswer(prior.0, contexts[n], outcomes[n], env);
      SnocLast(outcomes);
    }
  }

  /** Without a workspace nothing is uploaded: every context fails with the workspace error,
      and each "Source Code" entry also posts that error to the webview. */
  lemma {:induction false} UploadAllWithoutWorkspace(h: HostState, contexts: seq<string>, outcomes: seq<Outcome<string>>, env: TurnEnv)
    requires |outcomes| == |contexts| && !env.workspaceOpen
    ensures var r := UploadAll(h, contexts, outcomes, env);
      && r.0.calls == h.calls
      && (forall i :: 0 <= i < |contexts| ==> r.1[i] == Fail(NO_WORKSPACE))
      && (forall k :: |h.sent| <= k < |r.0.sent| ==> r.0.sent[k] == ErrorMessage(NO_WORKSPACE))
      && (SOURCE_CODE !in contexts ==> r.0.sent == h.sent)
    decreases |contexts|
  {
    if contexts != [] {
      var n := |contexts| - 1;
      UploadAllWithoutWorkspace(h, contexts[..n], outcomes[..n], env);
      assert contexts == contexts[..n] + [contexts[n]];
      if SOURCE_CODE !in contexts {
        assert SOURCE_CODE !in contexts[..n];
      }
    }
  }

  /** An upload call names its file by the retagging rule; other calls trivially do. */
  predicate NamedCall(call: RemoteCall) {
    call.UploadFile? ==> call.uploadName == UploadName(call.path)
  }

  /** Every upload call names its file by the retagging rule. */
  predicate UploadsNamed(calls: seq<RemoteCall>) {
    forall k :: 0 <= k < |calls| ==> NamedCall(calls[k])
  }

  lemma NamedAppend(calls: seq<RemoteCall>, call: RemoteCall)
    requires UploadsNamed(calls) && NamedCall(call)
    ensures UploadsNamed(calls + [call])
  {
    assert forall k :: 0 <= k < |calls| ==> (calls + [call])[k] == calls[k];
  }

  /** One file context adds at most one call, an upload under the retagged name. */
  lemma UploadContextNamed(h: HostState, context: string, outcome: Outcome<string>, env: TurnEnv)
    requires UploadsNamed(h.calls)
    ensures UploadsNamed(UploadContext(h, context, outcome, env).0.calls)
  {
    if env.workspaceOpen && h.clientReady && !(context == SOURCE_CODE && env.docs.Fail?) {
      var path := if context == SOURCE_CODE then env.docs.value else context;
      NamedAppend(h.calls, UploadFile(path, UploadName(path)));
    }
  }

  /** Whatever the workspace and the service answer, the upload step names every file it
      uploads by the retagging rule. */
  lemma {:induction false} UploadAllNamed(h: HostState, contexts: seq<string>, outcomes: seq<Outcome<string>>, env: TurnEnv)
    requires |outcomes| == |contexts| && UploadsNamed(h.calls)
    ensures UploadsNamed(UploadAll(h, contexts, outcomes, env).0.calls)
    decreases |contexts|
  {
    if contexts != [] {
      var n := |contexts| - 1;
      UploadAllNamed(h, contexts[..n], outcomes[..n], env);
      UploadContextNamed(UploadAll(h, contexts[..n], outcomes[..n], env).0, contexts[n], outcomes[n], env);
    }
  }
}
