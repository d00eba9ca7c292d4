/** The chat window of the webview (`ChatWindow`): the rewriting of LaTeX delimiters before a
    message is rendered as Markdown, and the window of at most five messages the user pages
    through. */
module ChatWindow {
  import opened Types
  import opened Text

  // ---------------------------------------------------------------- delimiter rewriting

  /** The number of white-space characters `s` starts with: what a greedy `\s*` takes. */
  function LeadingSpaces(s: string): (k: nat)
    ensures k <= |s|
    ensures forall j :: 0 <= j < k ==> IsSpace(s[j])
    ensures k < |s| ==> !IsSpace(s[k])
  {
    if s != [] && IsSpace(s[0]) then 1 + LeadingSpaces(s[1..]) else 0
  }

  /** `s.replace(/pat/g, rep)` for a pattern that is a literal string: the matches are found
      from left to right and do not overlap. */
  function ReplaceLiteral(s: string, pat: string, rep: string): string
    requires pat != []
    decreases |s|
  {
    if s == [] then []
    else if StartsWith(s, pat) then rep + ReplaceLiteral(s[|pat|..], pat, rep)
    else [s[0]] + ReplaceLiteral(s[1..], pat, rep)
  }

  /** A global replace of the opener followed by `\s*`: each opener is replaced together with
      the white space that follows it. */
  function ReplaceOpening(s: string, opener: string, rep: string): string
    requires opener != []
    decreases |s|
  {
    if s == [] then []
    else if StartsWith(s, opener) then
      var rest := s[|opener|..];
      rep + ReplaceOpening(rest[LeadingSpaces(rest)..], opener, rep)
    else [s[0]] + ReplaceOpening(s[1..], opener, rep)
  }

  /** A global replace of `\s*` followed by the closer, for a closer that starts with a
      backslash: each closer is replaced together with the white space that precedes it. A
      match starts at the first position from which white space alone leads to the closer. */
  function ReplaceClosing(s: string, closer: string, rep: string): string
    requires closer != []
    decreases |s|
  {
    if s == [] then []
    else
      var k := LeadingSpaces(s);
      if StartsWith(s[k..], closer) then rep + ReplaceClosing(s[k + |closer|..], closer, rep)
      else [s[0]] + ReplaceClosing(s[1..], closer, rep)
  }

  /** `processMessageContent`: an escaped dollar is set aside as `\dollar`, `\(` and `\)`
      become `$`, `\[` and `\]` become `$` on a line of their own, and the escaped dollars are
      put back. */
  function ProcessMessageContent(content: string): string {
    var setAside := ReplaceLiteral(content, "\\$", "\\dollar");
    var inlineOpened := ReplaceOpening(setAside, "\\(", "$");
    var inlineClosed := ReplaceClosing(inlineOpened, "\\)", "$");
    var displayOpened := ReplaceOpening(inlineClosed, "\\[", "\n\n$\n");
    var displayClosed := ReplaceClosing(displayOpened, "\\]", "\n$\n\n");
    ReplaceLiteral(displayClosed, "\\dollar", "\\$")
  }

  /** The text has no backslash. */
  predicate NoBackslash(s: string) {
    forall i :: 0 <= i < |s| ==> s[i] != '\\'
  }

  /** Somewhere in the text a backslash is directly followed by `c`. */
  predicate Escapes(s: string, c: char) {
    exists i :: 0 <= i < |s| - 1 && s[i] == '\\' && s[i + 1] == c
  }

  /** Every backslash of the text is directly followed by `c`. */
  predicate OnlyEscapes(s: string, c: char) {
    forall i :: 0 <= i < |s| && s[i] == '\\' ==> i + 1 < |s| && s[i + 1] == c
  }

  // ---------------------------------------------------------------- paging

  /** `windowSize`. */
  const WINDOW_SIZE: nat := 5

  /** `Math.max(0, messages.length - windowSize)`: the start that shows the latest messages. */
  function LastWindowStart(count: nat): nat {
    if count > WINDOW_SIZE then count - WINDOW_SIZE else 0
  }

  /** `messages.slice(start, start + windowSize)`. */
  function Visible(messages: seq<Message>, start: nat): seq<Message> {
    if start >= |messages| then []
    else if start + WINDOW_SIZE <= |messages| then messages[start..start + WINDOW_SIZE]
    else messages[start..]
  }

  predicate CanMoveNext(start: nat, count: nat, isAssistantTyping: bool) {
    start + WINDOW_SIZE < count && !isAssistantTyping
  }

  predicate CanMovePrev(start: nat, isAssistantTyping: bool) {
    start > 0 && !isAssistantTyping
  }

  /** `moveNext`. */
  function NextStart(start: nat, count: nat, isAssistantTyping: bool): nat {
    if CanMoveNext(start, count, isAssistantTyping) then start + 1 else start
  }

  /** `movePrev`. */
  function PrevStart(start: nat, isAssistantTyping: bool): nat {
    if CanMovePrev(start, isAssistantTyping) then (if start - 1 > 0 then start - 1 else 0) else start
  }

  /** The first-page button, which is disabled when `movePrev` is. */
  function FirstStart(start: nat, isAssistantTyping: bool): nat {
    if CanMovePrev(start, isAssistantTyping) then 0 else start
  }

  /** The last-page button, which is disabled when `moveNext` is. */
  function LastStart(start: nat, count: nat, isAssistantTyping: bool): nat {
    if CanMoveNext(start, count, isAssistantTyping) then LastWindowStart(count) else start
  }

  /** A mounted `ChatWindow`: the messages it was last rendered with and the start of its
      window. */
  class Pager {
    var messages: seq<Message>
    var currentWindowStart: nat

    /** The window never starts past the one that shows the latest messages. */
    ghost predicate Valid()
      reads this
    {
      currentWindowStart <= LastWindowStart(|messages|)
    }

    constructor (messages: seq<Message>)
      ensures this.messages == messages && currentWindowStart == LastWindowStart(|messages|)
      ensures Valid()
    {
      this.messages := messages;
      currentWindowStart := LastWindowStart(|messages|);
    }

    /** The effect that runs when the messages change: back to the latest ones. */
    method OnMessagesChanged(newMessages: seq<Message>)
      modifies this
      ensures messages == newMessages && currentWindowStart == LastWindowStart(|newMessages|)
      ensures Valid()
    {
      messages := newMessages;
      currentWindowStart := LastWindowStart(|messages|);
    }

    /** `visibleMessages`. */
    function VisibleMessages(): seq<Message>
      reads this
    {
      Visible(messages, currentWindowStart)
    }

    method MoveNext(isAssistantTyping: bool)
      requires Valid()
      modifies this
      ensures messages == old(messages)
      ensures currentWindowStart == NextStart(old(currentWindowStart), |messages|, isAssistantTyping)
      ensures Valid()
    {
      if currentWindowStart + WINDOW_SIZE < |messages| && !isAssistantTyping {
        currentWindowStart := currentWindowStart + 1;
      }
    }

    method MovePrev(isAssistantTyping: bool)
      requires Valid()
      modifies this
      ensures messages == old(messages)
      ensures currentWindowStart == PrevStart(old(currentWindowStart), isAssistantTyping)
      ensures Valid()
    {
      if currentWindowStart > 0 && !isAssistantTyping {
        currentWindowStart := if currentWindowStart - 1 > 0 then currentWindowStart - 1 else 0;
      }
    }

    method MoveFirst(isAssistantTyping: bool)
      requires Valid()
      modifies this
      ensures messages == old(messages)
      ensures currentWindowStart == FirstStart(old(currentWindowStart), isAssistantTyping)
      ensures Valid()
    {
      if currentWindowStart > 0 && !isAssistantTyping {
        currentWindowStart := 0;
      }
    }

    method MoveLast(isAssistantTyping: bool)
      requires Valid()
      modifies this
      ensures messages == old(messages)
      ensures currentWindowStart == LastStart(old(currentWindowStart), |messages|, isAssistantTyping)
      ensures Valid()
    {
      if currentWindowStart + WINDOW_SIZE < |messages| && !isAssistantTyping {
        currentWindowStart := LastWindowStart(|messages|);
      }
    }
  }
}
