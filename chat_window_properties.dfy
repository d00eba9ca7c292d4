/** What the chat window guarantees: which texts the delimiter rewriting leaves alone, what it
    makes of the inline and display delimiters, and that paging stays within the messages. */
module ChatWindowProperties {
  import opened Types
  import opened Text
  import opened ChatWindow

  // ---------------------------------------------------------------- facts about texts

  lemma EscapesTail(s: string, c: char)
    requires s != []
    ensures Escapes(s[1..], c) ==> Escapes(s, c)
  {
    if Escapes(s[1..], c) {
      var i :| 0 <= i < |s[1..]| - 1 && s[1..][i] == '\\' && s[1..][i + 1] == c;
      assert s[i + 1] == '\\' && s[i + 2] == c;
    }
  }

  lemma NoBackslashEscapesNothing(s: string, c: char)
    requires NoBackslash(s)
    ensures !Escapes(s, c) && OnlyEscapes(s, c)
  {
  }

  /** Joining two texts creates an escape only across the joint. */
  lemma NoEscapeConcat(a: string, b: string, c: char)
    requires !Escapes(a, c) && !Escapes(b, c)
    requires a == [] || b == [] || a[|a| - 1] != '\\' || b[0] != c
    ensures !Escapes(a + b, c)
  {
    forall i | 0 <= i < |a + b| - 1
      ensures !((a + b)[i] == '\\' && (a + b)[i + 1] == c)
    {
      if i + 1 < |a| {
        assert (a + b)[i] == a[i] && (a + b)[i + 1] == a[i + 1];
      } else if i >= |a| {
        assert (a + b)[i] == b[i - |a|] && (a + b)[i + 1] == b[i - |a| + 1];
      }
    }
  }

  lemma OnlyEscapesConcat(a: string, b: string, c: char)
    requires OnlyEscapes(a, c) && OnlyEscapes(b, c)
    ensures OnlyEscapes(a + b, c)
  {
    forall i | 0 <= i < |a + b| && (a + b)[i] == '\\'
      ensures i + 1 < |a + b| && (a + b)[i + 1] == c
    {
      if i < |a| {
        assert a[i] == '\\';
      } else {
        assert b[i - |a|] == '\\';
      }
    }
  }

  lemma OnlyEscapesTail(s: string, c: char, n: nat)
    requires OnlyEscapes(s, c) && n <= |s|
    ensures OnlyEscapes(s[n..], c)
  {
    forall i | 0 <= i < |s[n..]| && s[n..][i] == '\\'
      ensures i + 1 < |s[n..]| && s[n..][i + 1] == c
    {
      assert s[n + i] == '\\';
    }
  }

  lemma OnlyEscapesExclude(s: string, c: char, d: char)
    requires OnlyEscapes(s, c) && d != c
    ensures !Escapes(s, d)
  {
  }

  /** White space followed by a text that does not start with white space: `\s*` takes
      exactly the white space. */
  lemma LeadingSpacesOf(w: string, rest: string)
    requires IsBlank(w)
    requires rest == [] || !IsSpace(rest[0])
    ensures LeadingSpaces(w + rest) == |w|
  {
    assert forall j :: 0 <= j < |w| ==> (w + rest)[j] == w[j];
    assert rest != [] ==> (w + rest)[|w|] == rest[0];
  }

  /** A text that starts with a pattern starts with its first two characters. */
  lemma StartsWithHead(s: string, t: string)
    requires |t| >= 2
    ensures StartsWith(s, t) ==> |s| >= 2 && s[0] == t[0] && s[1] == t[1]
  {
    if StartsWith(s, t) {
      assert s[..|t|][0] == s[0] && s[..|t|][1] == s[1];
    }
  }

  lemma BlankHasNoBackslash(w: string)
    requires IsBlank(w)
    ensures NoBackslash(w)
  {
    forall i | 0 <= i < |w|
      ensures w[i] != '\\'
    {
      assert IsSpace(w[i]);
    }
  }

  // ---------------------------------------------------------------- the three replacements

  /** A literal pattern that starts with a backslash does not match where that backslash and
      its successor do not occur. */
  lemma {:induction false} NoEscapeLiteral(s: string, pat: string, rep: string)
    requires |pat| >= 2 && pat[0] == '\\' && !Escapes(s, pat[1])
    ensures ReplaceLiteral(s, pat, rep) == s
    decreases |s|
  {
    if s != [] {
      StartsWithHead(s, pat);
      EscapesTail(s, pat[1]);
      NoEscapeLiteral(s[1..], pat, rep);
    }
  }

  lemma {:induction false} NoEscapeOpening(s: string, opener: string, rep: string)
    requires |opener| >= 2 && opener[0] == '\\' && !Escapes(s, opener[1])
    ensures ReplaceOpening(s, opener, rep) == s
    decreases |s|
  {
    if s != [] {
      StartsWithHead(s, opener);
      EscapesTail(s, opener[1]);
      NoEscapeOpening(s[1..], opener, rep);
    }
  }

  lemma {:induction false} NoEscapeClosing(s: string, closer: string, rep: string)
    requires |closer| >= 2 && closer[0] == '\\' && !Escapes(s, closer[1])
    ensures ReplaceClosing(s, closer, rep) == s
    decreases |s|
  {
    if s != [] {
      var k := LeadingSpaces(s);
      StartsWithHead(s[k..], closer);
      if |s[k..]| >= 2 {
        assert s[k..][0] == s[k] && s[k..][1] == s[k + 1];
      }
      EscapesTail(s, closer[1]);
      NoEscapeClosing(s[1..], closer, rep);
    }
  }

  /** A text that starts with a pattern starts with the pattern's first character. */
  lemma StartsWithFirst(s: string, t: string)
    requires t != []
    ensures StartsWith(s, t) ==> s != [] && s[0] == t[0]
  {
    if StartsWith(s, t) {
      assert s[..|t|][0] == s[0];
    }
  }

  /** A prefix without backslashes passes through each replacement unchanged. */
  lemma {:induction false} PrefixLiteral(a: string, b: string, pat: string, rep: string)
    requires NoBackslash(a) && pat != [] && pat[0] == '\\'
    ensures ReplaceLiteral(a + b, pat, rep) == a + ReplaceLiteral(b, pat, rep)
    decreases |a|
  {
    if a == [] {
      assert a + b == b;
    } else {
      var s := a + b;
      assert s[0] == a[0] && s[1..] == a[1..] + b;
      StartsWithFirst(s, pat);
      PrefixLiteral(a[1..], b, pat, rep);
      ConsAssoc(a, ReplaceLiteral(b, pat, rep));
    }
  }

  lemma {:induction false} PrefixOpening(a: string, b: string, opener: string, rep: string)
    requires NoBackslash(a) && opener != [] && opener[0] == '\\'
    ensures ReplaceOpening(a + b, opener, rep) == a + ReplaceOpening(b, opener, rep)
    decreases |a|
  {
    if a == [] {
      assert a + b == b;
    } else {
      var s := a + b;
      assert s[0] == a[0] && s[1..] == a[1..] + b;
      StartsWithFirst(s, opener);
      PrefixOpening(a[1..], b, opener, rep);
      ConsAssoc(a, ReplaceOpening(b, opener, rep));
    }
  }

  /** For the closing replacement the prefix must also end in something other than white
      space, or the white space would join a closer that follows. */
  lemma {:induction false} PrefixClosing(a: string, b: string, closer: string, rep: string)
    requires NoBackslash(a) && (a != [] ==> !IsSpace(a[|a| - 1]))
    requires closer != [] && closer[0] == '\\'
    ensures ReplaceClosing(a + b, closer, rep) == a + ReplaceClosing(b, closer, rep)
    decreases |a|
  {
    if a == [] {
      assert a + b == b;
    } else {
      var s := a + b;
      SpacesStopInside(a, b);
      assert s[LeadingSpaces(s)] == a[LeadingSpaces(s)];
      ClosingUnmatched(s, closer, rep);
      assert s[0] == a[0] && s[1..] == a[1..] + b;
      var a' := a[1..];
      assert NoBackslash(a') && (a' != [] ==> !IsSpace(a'[|a'| - 1])) by {
        assert forall i :: 0 <= i < |a'| ==> a'[i] == a[i + 1];
      }
      PrefixClosing(a', b, closer, rep);
      ConsAssoc(a, ReplaceClosing(b, closer, rep));
    }
  }

  lemma ConsAssoc(a: string, t: string)
    requires a != []
    ensures [a[0]] + (a[1..] + t) == a + t
  {
    assert a == [a[0]] + a[1..];
  }

  /** White space at the start of `a + b` ends inside `a` when `a` ends in something else. */
  lemma SpacesStopInside(a: string, b: string)
    requires a != [] && !IsSpace(a[|a| - 1])
    ensures LeadingSpaces(a + b) < |a|
  {
    assert !IsSpace((a + b)[|a| - 1]);
  }

  /** Where `\s*` leads to something other than a backslash, the closer does not match. */
  lemma ClosingUnmatched(s: string, closer: string, rep: string)
    requires closer != [] && closer[0] == '\\'
    requires LeadingSpaces(s) < |s| && s[LeadingSpaces(s)] != '\\'
    ensures ReplaceClosing(s, closer, rep) == [s[0]] + ReplaceClosing(s[1..], closer, rep)
  {
    var k := LeadingSpaces(s);
    assert s[k..][0] == s[k];
  }

  /** An opener and the white space after it become the replacement. */
  lemma OpeningAtStart(opener: string, w: string, rest: string, rep: string)
    requires opener != [] && IsBlank(w) && (rest == [] || !IsSpace(rest[0]))
    ensures ReplaceOpening(opener + w + rest, opener, rep) == rep + ReplaceOpening(rest, opener, rep)
  {
    var s := opener + w + rest;
    assert s[..|opener|] == opener;
    assert s[|opener|..] == w + rest;
    LeadingSpacesOf(w, rest);
    assert (w + rest)[|w|..] == rest;
  }

  /** White space and the closer after it become the replacement. */
  lemma ClosingAtStart(w: string, closer: string, rest: string, rep: string)
    requires closer != [] && closer[0] == '\\' && IsBlank(w)
    ensures ReplaceClosing(w + closer + rest, closer, rep) == rep + ReplaceClosing(rest, closer, rep)
  {
    var s := w + closer + rest;
    assert s == w + (closer + rest);
    LeadingSpacesOf(w, closer + rest);
    assert s[|w|..] == closer + rest;
    assert s[|w|..][..|closer|] == closer;
    assert s[|w| + |closer|..] == rest;
  }

  // ---------------------------------------------------------------- the escaped dollar

  /** The set-aside word escapes nothing but `d`. */
  lemma DollarWordEscapesD()
    ensures OnlyEscapes("\\dollar", 'd')
  {
    var w := "\\dollar";
    forall i | 0 <= i < |w| && w[i] == '\\'
      ensures i + 1 < |w| && w[i + 1] == 'd'
    {
      assert i == 0;
    }
  }

  /** Putting back a set-aside dollar at the start of a text. */
  lemma RestoreAtWord(t: string)
    ensures ReplaceLiteral("\\dollar" + t, "\\dollar", "\\$") == "\\$" + ReplaceLiteral(t, "\\dollar", "\\$")
  {
    var u := "\\dollar" + t;
    assert u[..7] == "\\dollar";
    assert u[7..] == t;
  }

  /** Putting back set-aside dollars passes over a character that is not a backslash. */
  lemma RestorePastChar(c: char, t: string)
    requires c != '\\'
    ensures ReplaceLiteral([c] + t, "\\dollar", "\\$") == [c] + ReplaceLiteral(t, "\\dollar", "\\$")
  {
    var u := [c] + t;
    assert u[0] == c && u[1..] == t;
    StartsWithFirst(u, "\\dollar");
  }

  /** Setting escaped dollars aside leaves only `\d` escapes, and putting them back restores
      the text, provided every backslash of the text escapes a dollar. */
  lemma {:induction false} SetAsideAndRestore(s: string)
    requires OnlyEscapes(s, '$')
    ensures OnlyEscapes(ReplaceLiteral(s, "\\$", "\\dollar"), 'd')
    ensures ReplaceLiteral(ReplaceLiteral(s, "\\$", "\\dollar"), "\\dollar", "\\$") == s
    decreases |s|
  {
    if s != [] {
      var t := ReplaceLiteral(s, "\\$", "\\dollar");
      if StartsWith(s, "\\$") {
        OnlyEscapesTail(s, '$', 2);
        SetAsideAndRestore(s[2..]);
        var t' := ReplaceLiteral(s[2..], "\\$", "\\dollar");
        assert t == "\\dollar" + t';
        DollarWordEscapesD();
        OnlyEscapesConcat("\\dollar", t', 'd');
        RestoreAtWord(t');
        assert s == "\\$" + s[2..];
      } else {
        assert s[0] != '\\';
        OnlyEscapesTail(s, '$', 1);
        SetAsideAndRestore(s[1..]);
        var t' := ReplaceLiteral(s[1..], "\\$", "\\dollar");
        assert t == [s[0]] + t';
        OnlyEscapesConcat([s[0]], t', 'd');
        RestorePastChar(s[0], t');
        assert s == [s[0]] + s[1..];
      }
    }
  }

  /** A text whose only escapes are `\d` passes the four delimiter rewrites unchanged. */
  lemma DelimiterRewritesFixed(t: string)
    requires OnlyEscapes(t, 'd')
    ensures ReplaceOpening(t, "\\(", "$") == t
    ensures ReplaceClosing(t, "\\)", "$") == t
    ensures ReplaceOpening(t, "\\[", "\n\n$\n") == t
    ensures ReplaceClosing(t, "\\]", "\n$\n\n") == t
  {
    OnlyEscapesExclude(t, 'd', '(');
    OnlyEscapesExclude(t, 'd', ')');
    OnlyEscapesExclude(t, 'd', '[');
    OnlyEscapesExclude(t, 'd', ']');
    NoEscapeOpening(t, "\\(", "$");
    NoEscapeClosing(t, "\\)", "$");
    NoEscapeOpening(t, "\\[", "\n\n$\n");
    NoEscapeClosing(t, "\\]", "\n$\n\n");
  }

  /** A text whose every backslash escapes a dollar is rendered as it is: its escaped
      dollars survive. */
  lemma EscapedDollarsSurvive(s: string)
    requires OnlyEscapes(s, '$')
    ensures ProcessMessageContent(s) == s
  {
    SetAsideAndRestore(s);
    DelimiterRewritesFixed(ReplaceLiteral(s, "\\$", "\\dollar"));
  }

  /** So a text without a backslash is rendered as it is: every rewrite matches a
      backslash. */
  lemma NoBackslashUnchanged(s: string)
    requires NoBackslash(s)
    ensures ProcessMessageContent(s) == s
  {
    NoBackslashEscapesNothing(s, '$');
    EscapedDollarsSurvive(s);
  }

  /** The proviso matters: a text that already holds the word `\dollar` comes out with an
      escaped dollar in its place. */
  lemma DollarWordIsRewritten()
    ensures ProcessMessageContent("\\dollar") == "\\$"
  {
    var s := "\\dollar";
    assert OnlyEscapes(s, 'd') by {
      forall i | 0 <= i < |s| && s[i] == '\\'
        ensures i + 1 < |s| && s[i + 1] == 'd'
      {
        assert i == 0;
      }
    }
    OnlyEscapesExclude(s, 'd', '$');
    NoEscapeLiteral(s, "\\$", "\\dollar");
    DelimiterRewritesFixed(s);
    DollarWordRestored();
    Chain(s, s, s, s, s, s, "\\$");
  }

  /** The last rewrite turns the word `\dollar` into an escaped dollar. */
  lemma DollarWordRestored()
    ensures ReplaceLiteral("\\dollar", "\\dollar", "\\$") == "\\$"
  {
    var s := "\\dollar";
    assert StartsWith(s, "\\dollar");
    assert s[|s|..] == [];
    assert ReplaceLiteral(s, s, "\\$") == "\\$" + ReplaceLiteral([], s, "\\$");
  }

  // ---------------------------------------------------------------- the delimiters

  /** A text between two escapes: `\` o, the middle, `\` c. */
  function Delimited(o: char, middle: string, c: char): string {
    ['\\', o] + middle + ['\\', c]
  }

  /** Such a text escapes nothing but `o` and `c`. */
  lemma DelimitedEscapes(o: char, middle: string, c: char, d: char)
    requires NoBackslash(middle) && o != '\\' && d != '\\' && d != o && d != c
    ensures !Escapes(Delimited(o, middle, c), d)
  {
    NoBackslashEscapesNothing(middle, d);
    NoEscapeConcat(['\\', o], middle, d);
    NoEscapeConcat(['\\', o] + middle, ['\\', c], d);
  }

  /** The conditions on the formula of the two delimiter lemmas: no backslash, and no white
      space at either end. */
  predicate Formula(x: string) {
    x != [] && NoBackslash(x) && !IsSpace(x[0]) && !IsSpace(x[|x| - 1])
  }

  /** A formula, the white space after it and a different closer pass the opening rewrite
      unchanged. */
  lemma FormulaNotOpened(opener: string, x: string, w': string, closer: string, rep: string)
    requires |opener| == 2 && opener[0] == '\\' && |closer| == 2 && closer[0] == '\\' && closer[1] != opener[1]
    requires IsBlank(w') && Formula(x)
    ensures ReplaceOpening(x + w' + closer, opener, rep) == x + w' + closer
  {
    BlankHasNoBackslash(w');
    NoBackslashConcat(x, w');
    PrefixOpening(x + w', closer, opener, rep);
    assert !Escapes(closer, opener[1]) by {
      assert closer[1] != opener[1];
    }
    NoEscapeOpening(closer, opener, rep);
  }

  /** The opening rewrite of a formula between an opener and a closer: the opener and the
      white space after it become the replacement, and the rest is left alone. */
  lemma OpenedFormula(opener: string, w: string, x: string, w': string, closer: string, rep: string)
    requires |opener| == 2 && opener[0] == '\\' && |closer| == 2 && closer[0] == '\\' && closer[1] != opener[1]
    requires IsBlank(w) && IsBlank(w') && Formula(x)
    ensures ReplaceOpening(opener + w + x + w' + closer, opener, rep) == (rep + x) + (w' + closer)
  {
    var rest := x + w' + closer;
    RegroupTail(opener, w, x, w', closer);
    assert rest[0] == x[0];
    OpeningAtStart(opener, w, rest, rep);
    FormulaNotOpened(opener, x, w', closer, rep);
    RegroupHead(rep, x, w', closer);
  }

  lemma RegroupTail(a: string, b: string, c: string, d: string, e: string)
    ensures a + b + c + d + e == a + b + (c + d + e)
  {
  }

  lemma RegroupHead(a: string, b: string, c: string, d: string)
    ensures a + (b + c + d) == (a + b) + (c + d)
  {
  }

  /** The closing rewrite that follows: the white space before the closer and the closer
      become the replacement. */
  lemma ClosedFormula(p: string, w': string, closer: string, rep: string)
    requires NoBackslash(p) && p != [] && !IsSpace(p[|p| - 1]) && IsBlank(w')
    requires |closer| == 2 && closer[0] == '\\'
    ensures ReplaceClosing(p + (w' + closer), closer, rep) == p + rep
  {
    PrefixClosing(p, w' + closer, closer, rep);
    assert w' + closer + [] == w' + closer;
    ClosingAtStart(w', closer, [], rep);
    assert rep + ReplaceClosing([], closer, rep) == rep;
  }

  /** A text without backslashes passes every rewrite of the chain unchanged. */
  lemma NoBackslashFixed(r: string)
    requires NoBackslash(r)
    ensures ReplaceLiteral(r, "\\$", "\\dollar") == r
    ensures ReplaceOpening(r, "\\(", "$") == r
    ensures ReplaceClosing(r, "\\)", "$") == r
    ensures ReplaceOpening(r, "\\[", "\n\n$\n") == r
    ensures ReplaceClosing(r, "\\]", "\n$\n\n") == r
    ensures ReplaceLiteral(r, "\\dollar", "\\$") == r
  {
    NoEscapeLiteral(r, "\\$", "\\dollar");
    NoEscapeOpening(r, "\\(", "$");
    NoEscapeClosing(r, "\\)", "$");
    NoEscapeOpening(r, "\\[", "\n\n$\n");
    NoEscapeClosing(r, "\\]", "\n$\n\n");
    NoEscapeLiteral(r, "\\dollar", "\\$");
  }

  lemma NoBackslashConcat(a: string, b: string)
    requires NoBackslash(a) && NoBackslash(b)
    ensures NoBackslash(a + b)
  {
    assert forall i :: 0 <= i < |a| ==> (a + b)[i] == a[i];
    assert forall i :: |a| <= i < |a + b| ==> (a + b)[i] == b[i - |a|];
  }

  /** The rendering is the chain of its six rewrites. */
  lemma Chain(s: string, t1: string, t2: string, t3: string, t4: string, t5: string, t6: string)
    requires ReplaceLiteral(s, "\\$", "\\dollar") == t1
    requires ReplaceOpening(t1, "\\(", "$") == t2
    requires ReplaceClosing(t2, "\\)", "$") == t3
    requires ReplaceOpening(t3, "\\[", "\n\n$\n") == t4
    requires ReplaceClosing(t4, "\\]", "\n$\n\n") == t5
    requires ReplaceLiteral(t5, "\\dollar", "\\$") == t6
    ensures ProcessMessageContent(s) == t6
  {
  }

  /** An inline formula has no escaped dollar to set aside. */
  lemma InlineNothingSetAside(w: string, x: string, w': string)
    requires IsBlank(w) && IsBlank(w') && Formula(x)
    ensures var s := "\\(" + w + x + w' + "\\)"; ReplaceLiteral(s, "\\$", "\\dollar") == s
  {
    var s := "\\(" + w + x + w' + "\\)";
    BlankHasNoBackslash(w);
    BlankHasNoBackslash(w');
    assert s == Delimited('(', w + x + w', ')');
    DelimitedEscapes('(', w + x + w', ')', '$');
    NoEscapeLiteral(s, "\\$", "\\dollar");
  }

  /** The closing rewrite of an inline formula once its opener is rewritten. */
  lemma InlineClosedStep(x: string, w': string)
    requires IsBlank(w') && Formula(x)
    ensures ReplaceClosing(("$" + x) + (w' + "\\)"), "\\)", "$") == "$" + x + "$"
    ensures NoBackslash("$" + x + "$")
  {
    var dollar := "$";
    var p := dollar + x;
    assert p[|p| - 1] == x[|x| - 1];
    assert NoBackslash(dollar);
    NoBackslashConcat(dollar, x);
    ClosedFormula(p, w', "\\)", dollar);
    NoBackslashConcat(p, dollar);
  }

  /** `\(` with the white space after it, and the white space before `\)` with the `\)`, each
      become `$`. */
  lemma InlineDelimiters(w: string, x: string, w': string)
    requires IsBlank(w) && IsBlank(w') && Formula(x)
    ensures ProcessMessageContent("\\(" + w + x + w' + "\\)") == "$" + x + "$"
  {
    var s := "\\(" + w + x + w' + "\\)";
    InlineNothingSetAside(w, x, w');
    OpenedFormula("\\(", w, x, w', "\\)", "$");
    InlineClosedStep(x, w');
    var r := "$" + x + "$";
    NoBackslashFixed(r);
    Chain(s, s, ("$" + x) + (w' + "\\)"), r, r, r, r);
  }

  /** The first three rewrites leave a display formula alone. */
  lemma DisplayUntouchedUntilOpened(w: string, x: string, w': string)
    requires IsBlank(w) && IsBlank(w') && Formula(x)
    ensures var s := "\\[" + w + x + w' + "\\]";
      ReplaceClosing(ReplaceOpening(ReplaceLiteral(s, "\\$", "\\dollar"), "\\(", "$"), "\\)", "$") == s
  {
    var s := "\\[" + w + x + w' + "\\]";
    BlankHasNoBackslash(w);
    BlankHasNoBackslash(w');
    assert s == Delimited('[', w + x + w', ']');
    DelimitedEscapes('[', w + x + w', ']', '$');
    DelimitedEscapes('[', w + x + w', ']', '(');
    DelimitedEscapes('[', w + x + w', ']', ')');
    NoEscapeLiteral(s, "\\$", "\\dollar");
    NoEscapeOpening(s, "\\(", "$");
    NoEscapeClosing(s, "\\)", "$");
  }

  /** The closing rewrite of a display formula once its opener is rewritten. */
  lemma DisplayClosedStep(x: string, w': string)
    requires IsBlank(w') && Formula(x)
    ensures ReplaceClosing(("\n\n$\n" + x) + (w' + "\\]"), "\\]", "\n$\n\n") == "\n\n$\n" + x + "\n$\n\n"
    ensures NoBackslash("\n\n$\n" + x + "\n$\n\n")
  {
    var lead, trail := "\n\n$\n", "\n$\n\n";
    var p := lead + x;
    assert p[|p| - 1] == x[|x| - 1];
    assert NoBackslash(lead) && NoBackslash(trail);
    NoBackslashConcat(lead, x);
    ClosedFormula(p, w', "\\]", trail);
    NoBackslashConcat(p, trail);
  }

  /** `\[` with the white space after it becomes a `$` on a line of its own after a blank
      line, and the white space before `\]` with the `\]` a `$` on a line of its own before
      one. */
  lemma DisplayDelimiters(w: string, x: string, w': string)
    requires IsBlank(w) && IsBlank(w') && Formula(x)
    ensures ProcessMessageContent("\\[" + w + x + w' + "\\]") == "\n\n$\n" + x + "\n$\n\n"
  {
    var s := "\\[" + w + x + w' + "\\]";
    DisplayUntouchedUntilOpened(w, x, w');
    var t1 := ReplaceLiteral(s, "\\$", "\\dollar");
    var t2 := ReplaceOpening(t1, "\\(", "$");
    OpenedFormula("\\[", w, x, w', "\\]", "\n\n$\n");
    DisplayClosedStep(x, w');
    var r := "\n\n$\n" + x + "\n$\n\n";
    NoBackslashFixed(r);
    Chain(s, t1, t2, s, ("\n\n$\n" + x) + (w' + "\\]"), r, r);
  }

  // ---------------------------------------------------------------- paging

  /** After a change to the messages the window shows the last five of them, or all of them
      when there are fewer. */
  lemma LatestWindow(messages: seq<Message>)
    ensures var v := Visible(messages, LastWindowStart(|messages|));
      && |v| == (if |messages| < WINDOW_SIZE then |messages| else WINDOW_SIZE)
      && v == messages[|messages| - |v|..]
  {
  }

  /** The window holds at most five consecutive messages from its start, and is full
      whenever there are five messages to show. */
  lemma VisibleSpec(messages: seq<Message>, start: nat)
    ensures |Visible(messages, start)| <= WINDOW_SIZE
    ensures start <= |messages| ==> Visible(messages, start) == messages[start..start + |Visible(messages, start)|]
    ensures start <= LastWindowStart(|messages|) ==>
      |Visible(messages, start)| == (if |messages| < WINDOW_SIZE then |messages| else WINDOW_SIZE)
  {
  }

  /** `moveNext` moves the window by exactly one when it can and not at all otherwise, never
      while the assistant is typing, and never past the latest window. */
  lemma NextStartSpec(start: nat, count: nat, isAssistantTyping: bool)
    requires start <= LastWindowStart(count)
    ensures NextStart(start, count, isAssistantTyping) <= LastWindowStart(count)
    ensures NextStart(start, count, isAssistantTyping) == start + 1 <==> CanMoveNext(start, count, isAssistantTyping)
    ensures !CanMoveNext(start, count, isAssistantTyping) ==> NextStart(start, count, isAssistantTyping) == start
    ensures isAssistantTyping ==> NextStart(start, count, isAssistantTyping) == start
  {
  }

  /** `movePrev` moves the window back by exactly one when it can and not at all otherwise,
      never while the assistant is typing, and never before the first message. */
  lemma PrevStartSpec(start: nat, count: nat, isAssistantTyping: bool)
    requires start <= LastWindowStart(count)
    ensures PrevStart(start, isAssistantTyping) <= LastWindowStart(count)
    ensures PrevStart(start, isAssistantTyping) + 1 == start <==> CanMovePrev(start, isAssistantTyping)
    ensures !CanMovePrev(start, isAssistantTyping) ==> PrevStart(start, isAssistantTyping) == start
    ensures isAssistantTyping ==> PrevStart(start, isAssistantTyping) == start
  {
  }

  /** The first- and last-page buttons jump to the ends, after which they are disabled. */
  lemma JumpSpec(start: nat, count: nat, isAssistantTyping: bool)
    requires start <= LastWindowStart(count)
    ensures FirstStart(start, isAssistantTyping) <= LastWindowStart(count)
    ensures LastStart(start, count, isAssistantTyping) <= LastWindowStart(count)
    ensures !CanMovePrev(FirstStart(start, false), false)
    ensures !CanMoveNext(LastStart(start, count, false), count, false)
  {
  }

  /** A step back undoes a step forward, and a step forward undoes a step back. */
  lemma StepsUndo(start: nat, count: nat)
    requires start <= LastWindowStart(count)
    ensures CanMoveNext(start, count, false) ==> PrevStart(NextStart(start, count, false), false) == start
    ensures CanMovePrev(start, false) ==> NextStart(PrevStart(start, false), count, false) == start
  {
  }
}
