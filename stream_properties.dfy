/** What the run-stream callbacks of a chat turn guarantee over any sequence of events: the
    placeholder only grows, every update posted for it extends the previous one, and the
    conversation only gains error notices and, on `end`, a non-empty assistant reply. */
module StreamProperties {
  import opened Types
  import opened Text
  import opened AccountStore
  import opened ConversationMerge
  import opened Protocol
  import opened ChatTurn
  import opened TurnProperties

  /** The text an event appends to the placeholder. */
  function DeltaText(ev: StreamEvent): string {
    match ev
    case TextDelta(v) => Show(v)
    case ToolCallDelta(kind, ci) => if kind == "code_interpreter" && ci.Some? then ToolCallText(ci.value) else ""
    case _ => ""
  }

  /** The text a sequence of events appends, in order. */
  function StreamText(evs: seq<StreamEvent>): string
    decreases |evs|
  {
    if evs == [] then "" else StreamText(evs[..|evs| - 1]) + DeltaText(evs[|evs| - 1])
  }

  /** The contents of the "updateMessage" notifications for one message id, in order. */
  function UpdatesFor(sent: seq<HostMessage>, id: string): seq<string>
    decreases |sent|
  {
    if sent == [] then []
    else
      var n := |sent| - 1;
      UpdatesFor(sent[..n], id) + (if sent[n].UpdateMessage? && sent[n].messageId == id then [sent[n].content] else [])
  }

  /** Each entry is a prefix of every later one. */
  predicate PrefixChain(u: seq<string>) {
    forall i, j :: 0 <= i <= j < |u| ==> u[i] <= u[j]
  }

  /** A message `end` may add: the placeholder as it then was, with some text. */
  predicate IsReplySnapshot(m: Message, initial: Message, final: string) {
    m == initial.(content := m.content) && m.content != "" && initial.content <= m.content <= final
  }

  lemma PrefixTransitive(a: string, b: string, c: string)
    requires a <= b && b <= c
    ensures a <= c
  {
    assert c[..|b|][..|a|] == c[..|a|];
  }

  lemma {:induction false} UpdatesForAppend(a: seq<HostMessage>, b: seq<HostMessage>, id: string)
    ensures UpdatesFor(a + b, id) == UpdatesFor(a, id) + UpdatesFor(b, id)
    decreases |b|
  {
    if b == [] {
      assert a + b == a;
    } else {
      var n := |b| - 1;
      assert (a + b)[..|a| + n] == a + b[..n];
      assert (a + b)[|a| + n] == b[n];
      UpdatesForAppend(a, b[..n], id);
      ConcatAssoc(UpdatesFor(a, id), UpdatesFor(b[..n], id), if b[n].UpdateMessage? && b[n].messageId == id then [b[n].content] else []);
    }
  }

  lemma UpdatesForOne(m: HostMessage, id: string)
    ensures UpdatesFor([m], id) == if m.UpdateMessage? && m.messageId == id then [m.content] else []
  {
    assert [m][..0] == [];
  }

  /** Notifications that are not "updateMessage" contribute no updates. */
  lemma {:induction false} NoMessageUpdates(s: seq<HostMessage>, id: string)
    requires forall k :: 0 <= k < |s| ==> !s[k].UpdateMessage?
    ensures UpdatesFor(s, id) == []
    decreases |s|
  {
    if s != [] {
      NoMessageUpdates(s[..|s| - 1], id);
    }
  }

  /** At most one update for `id` is posted, and it carries `content`. */
  predicate NoStaleUpdate(added: seq<HostMessage>, id: string, content: string) {
    UpdatesFor(added, id) == [] || UpdatesFor(added, id) == [content]
  }

  /** One event: the placeholder gains the event's text and keeps every other field; the
      turn's account and the conversation's other fields stay as they were. */
  lemma StepPlaceholder(h: HostState, ev: StreamEvent, f: Fresh)
    requires h.active.Some?
    ensures var a := h.active.value;
      var b := OnEvent(h, ev, f).active.value;
      && b.accountId == a.accountId
      && b.placeholder == a.placeholder.(content := a.placeholder.content + DeltaText(ev))
      && b.conversation == a.conversation.(messages := b.conversation.messages)
  {
    var a := h.active.value;
    assert a.placeholder.content + "" == a.placeholder.content;
  }

  /** One event only appends notifications, among them at most one update for the
      placeholder, which carries the placeholder's new content. */
  lemma StepSent(h: HostState, ev: StreamEvent, f: Fresh)
    requires h.active.Some? && f.id != h.active.value.placeholder.id
    ensures var r := OnEvent(h, ev, f);
      && h.sent <= r.sent
      && NoStaleUpdate(r.sent[|h.sent|..], h.active.value.placeholder.id, r.active.value.placeholder.content)
  {
    var r := OnEvent(h, ev, f);
    var pid := h.active.value.placeholder.id;
    if ev.End? || ev.StreamError? || ev.TextCreated? || ev.ToolCallCreated? {
      QuietEventSent(h, ev, f);
      NoMessageUpdates(r.sent[|h.sent|..], pid);
    } else {
      UpdatingEventSent(h, ev, f);
      var added := r.sent[|h.sent|..];
      if added != [] {
        assert added == [added[0]];
        UpdatesForOne(added[0], pid);
      }
    }
  }

  /** The events that do not touch the placeholder send no "updateMessage". */
  lemma QuietEventSent(h: HostState, ev: StreamEvent, f: Fresh)
    requires h.active.Some? && (ev.End? || ev.StreamError? || ev.TextCreated? || ev.ToolCallCreated?)
    ensures var r := OnEvent(h, ev, f);
      && h.sent <= r.sent
      && forall k :: |h.sent| <= k < |r.sent| ==> !r.sent[k].UpdateMessage?
  {
  }

  /** The other events send at most one notification, and an "updateMessage" for the
      placeholder carries its new content. */
  lemma UpdatingEventSent(h: HostState, ev: StreamEvent, f: Fresh)
    requires h.active.Some? && f.id != h.active.value.placeholder.id
    requires !(ev.End? || ev.StreamError? || ev.TextCreated? || ev.ToolCallCreated?)
    ensures var r := OnEvent(h, ev, f);
      && h.sent <= r.sent && |r.sent| <= |h.sent| + 1
      && (|r.sent| == |h.sent| + 1 && r.sent[|h.sent|].UpdateMessage? && r.sent[|h.sent|].messageId == h.active.value.placeholder.id
          ==> r.sent[|h.sent|].content == r.active.value.placeholder.content)
  {
  }

  /** One event adds at most one message to the conversation: an error notice, or on `end`
      the placeholder when it has text. */
  lemma StepMessages(h: HostState, ev: StreamEvent, f: Fresh)
    requires h.active.Some?
    ensures var a := h.active.value;
      var b := OnEvent(h, ev, f).active.value;
      && a.conversation.messages <= b.conversation.messages
      && |b.conversation.messages| <= |a.conversation.messages| + 1
      && (|b.conversation.messages| == |a.conversation.messages| + 1 ==>
            var m := b.conversation.messages[|a.conversation.messages|];
            IsErrorNotice(m) || (ev == End && m == a.placeholder && m.content != ""))
  {
    var pl := h.active.value.placeholder;
    if ev.StreamError? || ev.RunStepDone? {
      var reason := if ev.StreamError? then (match ev.errorMessage case Some(text) => text case None => DEFAULT_FAILURE)
                    else (match ev.lastError case Some(text) => text case None => "");
      assert StartsWith(SystemMessage(f.id, reason, f.now, pl.modelName, pl.assistantName).content, "Error: ");
    }
  }

  /** Over any event sequence the placeholder's content is its initial content followed by
      the text of the text and code-interpreter deltas, in arrival order; its other fields,
      the turn's account and the conversation's other fields never change. */
  lemma {:induction false} StreamPlaceholder(h: HostState, evs: seq<StreamEvent>, fs: seq<Fresh>)
    requires h.active.Some? && |fs| == |evs|
    ensures var a := h.active.value;
      var b := OnEvents(h, evs, fs).active.value;
      && b.accountId == a.accountId
      && b.placeholder == a.placeholder.(content := a.placeholder.content + StreamText(evs))
      && b.conversation == a.conversation.(messages := b.conversation.messages)
    decreases |evs|
  {
    if evs != [] {
      var n := |evs| - 1;
      StreamPlaceholder(h, evs[..n], fs[..n]);
      StepPlaceholder(OnEvents(h, evs[..n], fs[..n]), evs[n], fs[n]);
      StreamTextStep(h.active.value.placeholder.content, evs);
    }
  }

  lemma StreamTextStep(start: string, evs: seq<StreamEvent>)
    requires evs != []
    ensures start + StreamText(evs) == start + StreamText(evs[..|evs| - 1]) + DeltaText(evs[|evs| - 1])
  {
    ConcatAssoc(start, StreamText(evs[..|evs| - 1]), DeltaText(evs[|evs| - 1]));
  }

  /** The "updateMessage" contents posted for `id` between `before` and `after` form a
      prefix chain whose entries all lie between `lo` and `hi`. */
  predicate UpdatesChain(before: seq<HostMessage>, after: seq<HostMessage>, id: string, lo: string, hi: string) {
    && before <= after
    && var u := UpdatesFor(after[|before|..], id);
    && PrefixChain(u)
    && Between(u, lo, hi)
  }

  /** Entries of `u` all lie between `lo` and `hi`. */
  predicate Between(u: seq<string>, lo: string, hi: string) {
    forall i :: 0 <= i < |u| ==> lo <= u[i] <= hi
  }

  /** A chain stays a chain when the new upper bound is appended. */
  lemma ChainAppend(u: seq<string>, lo: string, mid: string, hi: string)
    requires PrefixChain(u) && Between(u, lo, mid) && lo <= mid && mid <= hi
    ensures PrefixChain(u + [hi]) && Between(u + [hi], lo, hi)
  {
    var v := u + [hi];
    forall i | 0 <= i < |v|
      ensures lo <= v[i] <= hi
    {
      if i < |u| {
        PrefixTransitive(v[i], mid, hi);
      } else {
        PrefixTransitive(lo, mid, hi);
      }
    }
    forall i, j | 0 <= i <= j < |v| ensures v[i] <= v[j] {
      if i < |u| && j == |u| {
        PrefixTransitive(v[i], mid, hi);
      }
    }
  }

  /** Raising the upper bound keeps the entries between the bounds. */
  lemma BetweenWiden(u: seq<string>, lo: string, mid: string, hi: string)
    requires Between(u, lo, mid) && mid <= hi
    ensures Between(u, lo, hi)
  {
    forall i | 0 <= i < |u| ensures u[i] <= hi {
      PrefixTransitive(u[i], mid, hi);
    }
  }

  /** A chain stays a chain when at most one update, carrying the new upper bound, follows. */
  lemma ChainStep(a: seq<HostMessage>, b: seq<HostMessage>, c: seq<HostMessage>, id: string, lo: string, mid: string, hi: string)
    requires UpdatesChain(a, b, id, lo, mid) && lo <= mid && mid <= hi
    requires b <= c && NoStaleUpdate(c[|b|..], id, hi)
    ensures UpdatesChain(a, c, id, lo, hi)
  {
    var u0 := UpdatesFor(b[|a|..], id);
    assert c[|a|..] == b[|a|..] + c[|b|..];
    UpdatesForAppend(b[|a|..], c[|b|..], id);
    assert Between(u0, lo, mid);
    if UpdatesFor(c[|b|..], id) == [] {
      assert u0 + [] == u0;
      BetweenWiden(u0, lo, mid, hi);
    } else {
      ChainAppend(u0, lo, mid, hi);
    }
  }

  /** The updates posted for the placeholder form a prefix chain: each one extends the
      previous, so their lengths never decrease, and all lie between the placeholder's
      initial and final content. Messages already posted are never retracted. */
  lemma {:induction false} StreamUpdatesArePrefixes(h: HostState, evs: seq<StreamEvent>, fs: seq<Fresh>)
    requires h.active.Some? && |fs| == |evs|
    requires forall i :: 0 <= i < |fs| ==> fs[i].id != h.active.value.placeholder.id
    ensures UpdatesChain(h.sent, OnEvents(h, evs, fs).sent, h.active.value.placeholder.id,
                         h.active.value.placeholder.content, OnEvents(h, evs, fs).active.value.placeholder.content)
    decreases |evs|
  {
    var pid := h.active.value.placeholder.id;
    var c0 := h.active.value.placeholder.content;
    if evs == [] {
      assert h.sent[|h.sent|..] == [];
    } else {
      var n := |evs| - 1;
      var mid := OnEvents(h, evs[..n], fs[..n]);
      StreamUpdatesArePrefixes(h, evs[..n], fs[..n]);
      StreamPlaceholder(h, evs[..n], fs[..n]);
      StepPlaceholder(mid, evs[n], fs[n]);
      StepSent(mid, evs[n], fs[n]);
      var midContent := mid.active.value.placeholder.content;
      var r := OnEvent(mid, evs[n], fs[n]);
      assert midContent <= r.active.value.placeholder.content;
      ChainStep(h.sent, mid.sent, r.sent, pid, c0, midContent, r.active.value.placeholder.content);
    }
  }

  /** The conversation only grows: the messages it had stay in place, and each message added
      is an error notice or a non-empty snapshot of the placeholder added by `end`. */
  lemma {:induction false} StreamMessagesAppendOnly(h: HostState, evs: seq<StreamEvent>, fs: seq<Fresh>)
    requires h.active.Some? && |fs| == |evs|
    ensures var a := h.active.value;
      var b := OnEvents(h, evs, fs).active.value;
      && a.conversation.messages <= b.conversation.messages
      && forall k :: |a.conversation.messages| <= k < |b.conversation.messages| ==>
           IsErrorNotice(b.conversation.messages[k])
           || (End in evs && IsReplySnapshot(b.conversation.messages[k], a.placeholder, b.placeholder.content))
    decreases |evs|
  {
    if evs != [] {
      var n := |evs| - 1;
      var a := h.active.value;
      var mid := OnEvents(h, evs[..n], fs[..n]).active.value;
      var b := OnEvents(h, evs, fs).active.value;
      StreamMessagesAppendOnly(h, evs[..n], fs[..n]);
      StreamPlaceholder(h, evs[..n], fs[..n]);
      StepPlaceholder(OnEvents(h, evs[..n], fs[..n]), evs[n], fs[n]);
      StepMessages(OnEvents(h, evs[..n], fs[..n]), evs[n], fs[n]);
      assert mid.placeholder.content <= b.placeholder.content;
      assert a.placeholder.content <= mid.placeholder.content;
      forall k | |a.conversation.messages| <= k < |b.conversation.messages|
        ensures IsErrorNotice(b.conversation.messages[k])
             || (End in evs && IsReplySnapshot(b.conversation.messages[k], a.placeholder, b.placeholder.content))
      {
        var m := b.conversation.messages[k];
        if k < |mid.conversation.messages| {
          assert m == mid.conversation.messages[k];
          if !IsErrorNotice(m) {
            assert evs[..n] <= evs;
            assert End in evs[..n];
            PrefixTransitive(m.content, mid.placeholder.content, b.placeholder.content);
          }
        } else if !IsErrorNotice(m) {
          assert evs[n] == End;
        }
      }
    }
  }

  /** Without an `end` event the conversation gains nothing but error notices: partial
      placeholder text is never added on the error paths. */
  lemma StreamWithoutEnd(h: HostState, evs: seq<StreamEvent>, fs: seq<Fresh>)
    requires h.active.Some? && |fs| == |evs|
    requires End !in evs
    ensures var a := h.active.value;
      var b := OnEvents(h, evs, fs).active.value;
      forall k :: |a.conversation.messages| <= k < |b.conversation.messages| ==>
        IsErrorNotice(b.conversation.messages[k])
  {
    StreamMessagesAppendOnly(h, evs, fs);
  }

  /** `end` switches the typing indicator off, adds the placeholder only when it has text,
      and persists the conversation: a known account then holds it as its one entry with
      its id. */
  lemma EndPersists(h: HostState, f: Fresh)
    requires h.active.Some? && KnownAccount(h.accounts, h.active.value.accountId)
    ensures var t := h.active.value;
      var r := OnEvent(h, End, f);
      var c := r.active.value.conversation;
      && c.messages == t.conversation.messages + (if t.placeholder.content != "" then [t.placeholder] else [])
      && r.sent == h.sent + [UpdateTypingStatus(false), UpdateConversation(c, Some(t.accountId))]
      && var i := FindAccountIndex(r.accounts, t.accountId);
         0 <= i && Holds(r.accounts[i], c)
  {
    var t := h.active.value;
    var pl := t.placeholder;
    var c := if pl.content != "" then t.conversation.(messages := t.conversation.messages + [pl]) else t.conversation;
    var h1 := h.(active := Some(t.(conversation := c)), sent := h.sent + [UpdateTypingStatus(false)]);
    EndStep(h, f);
    PersistStores(h1, t.accountId, c);
  }

  lemma EndStep(h: HostState, f: Fresh)
    requires h.active.Some?
    ensures var t := h.active.value;
      var c := if t.placeholder.content != "" then t.conversation.(messages := t.conversation.messages + [t.placeholder]) else t.conversation;
      OnEvent(h, End, f) == Persist(h.(active := Some(t.(conversation := c)), sent := h.sent + [UpdateTypingStatus(false)]), t.accountId, c)
  {
  }

  /** An error followed by `end` adds the error notice and then the placeholder with text. */
  lemma ErrorEnd(h: HostState, reason: string, f2: Fresh, f3: Fresh)
    requires h.active.Some? && h.active.value.placeholder.content != ""
    ensures var a := h.active.value;
      var b := OnEvent(OnEvent(h, StreamError(Some(reason)), f2), End, f3).active.value;
      b.conversation.messages == a.conversation.messages
        + [SystemMessage(f2.id, reason, f2.now, a.placeholder.modelName, a.placeholder.assistantName), a.placeholder]
  {
    var a := h.active.value;
    var h2 := OnEvent(h, StreamError(Some(reason)), f2);
    var sys := SystemMessage(f2.id, reason, f2.now, a.placeholder.modelName, a.placeholder.assistantName);
    assert h2.active.value.conversation.messages == a.conversation.messages + [sys];
    assert h2.active.value.placeholder == a.placeholder;
  }

  /** The stream library emits `end` after `error`: then the error notice comes first and
      the partial reply is still added after it. */
  lemma ErrorThenEnd(h: HostState, v: string, reason: string, f1: Fresh, f2: Fresh, f3: Fresh)
    requires h.active.Some? && h.active.value.placeholder.content == "" && v != ""
    ensures var b := OnEvents(h, [TextDelta(Some(v)), StreamError(Some(reason)), End], [f1, f2, f3]).active.value;
      var a := h.active.value;
      b.conversation.messages == a.conversation.messages
        + [SystemMessage(f2.id, reason, f2.now, a.placeholder.modelName, a.placeholder.assistantName),
           a.placeholder.(content := v)]
  {
    var evs := [TextDelta(Some(v)), StreamError(Some(reason)), End];
    var fs := [f1, f2, f3];
    assert evs[..2][..1] == [TextDelta(Some(v))] && fs[..2][..1] == [f1];
    assert evs[..2] == [TextDelta(Some(v)), StreamError(Some(reason))] && fs[..2] == [f1, f2];
    assert [TextDelta(Some(v))][..0] == [] && [f1][..0] == [];
    var a := h.active.value;
    var h1 := OnEvent(h, TextDelta(Some(v)), f1);
    assert OnEvents(h, [TextDelta(Some(v))], [f1]) == h1;
    assert h1.active.value == a.(placeholder := a.placeholder.(content := v));
    assert OnEvents(h, evs, fs) == OnEvent(OnEvent(h1, StreamError(Some(reason)), f2), End, f3);
    ErrorEnd(h1, reason, f2, f3);
  }
}
