/** String operations of the JavaScript runtime and of Node's `path` module that the
    modelled code relies on, written out on `seq<char>`. */
module Text {

  /** The characters JavaScript's `trim` and the regular-expression class `\s` treat as
      white space (WhiteSpace and LineTerminator of ECMAScript). */
  predicate IsSpace(c: char) {
    c == '\t' || c == '\n' || c == '\U{000B}' || c == '\U{000C}' || c == '\r' || c == ' '
    || c == '\U{00A0}' || c == '\U{1680}' || ('\U{2000}' <= c <= '\U{200A}')
    || c == '\U{2028}' || c == '\U{2029}' || c == '\U{202F}' || c == '\U{205F}'
    || c == '\U{3000}' || c == '\U{FEFF}'
  }

  /** `s.trim() === ""`: the string is falsy once trimmed. */
  predicate IsBlank(s: string) {
    forall i :: 0 <= i < |s| ==> IsSpace(s[i])
  }

  function LowerChar(c: char): char {
    if 'A' <= c <= 'Z' then (c as int + 32) as char else c
  }

  /** `toLowerCase`, on ASCII letters. */
  function Lower(s: string): (r: string)
    ensures |r| == |s|
    ensures forall i :: 0 <= i < |s| ==> r[i] == LowerChar(s[i])
  {
    if s == [] then [] else [LowerChar(s[0])] + Lower(s[1..])
  }

  /** `t` occurs in `s` starting at index `i`. */
  predicate OccursAt(s: string, t: string, i: int) {
    0 <= i <= |s| - |t| && s[i..i + |t|] == t
  }

  /** `s.includes(t)`. */
  predicate Contains(s: string, t: string) {
    exists i :: 0 <= i <= |s| - |t| && OccursAt(s, t, i)
  }

  predicate StartsWith(s: string, t: string) {
    |t| <= |s| && s[..|t|] == t
  }

  /** Index of the last occurrence of `c` in `s`, or -1. */
  function LastIndexOf(s: string, c: char): (r: int)
    ensures -1 <= r < |s|
    ensures r >= 0 ==> s[r] == c
  {
    if s == [] then -1
    else if s[|s| - 1] == c then |s| - 1
    else LastIndexOf(s[..|s| - 1], c)
  }

  /** No occurrence of `c` follows the one `LastIndexOf` finds. */
  lemma {:induction false} LastIndexOfIsLast(s: string, c: char)
    ensures forall i :: LastIndexOf(s, c) < i < |s| ==> s[i] != c
    decreases |s|
  {
    if s != [] && s[|s| - 1] != c {
      var t := s[..|s| - 1];
      LastIndexOfIsLast(t, c);
      forall i | LastIndexOf(s, c) < i < |s| ensures s[i] != c {
        if i < |t| {
          assert s[i] == t[i];
        }
      }
    }
  }

  /** `s.split("/").pop()`: the text after the last "/", or all of `s` when it has none. */
  function AfterLastSlash(s: string): (r: string)
    ensures |r| <= |s|
    decreases |s|
  {
    if s == [] || s[|s| - 1] == '/' then [] else AfterLastSlash(s[..|s| - 1]) + [s[|s| - 1]]
  }

  /** The text after the last "/" is a suffix of `s` without "/" that starts `s` or follows a
      "/". */
  lemma {:induction false} AfterLastSlashSpec(s: string)
    ensures var r := AfterLastSlash(s);
      && r == s[|s| - |r|..]
      && '/' !in r
      && (|r| == |s| || s[|s| - |r| - 1] == '/')
    decreases |s|
  {
    if s != [] && s[|s| - 1] != '/' {
      var t := s[..|s| - 1];
      AfterLastSlashSpec(t);
      var r := AfterLastSlash(t);
      assert s[|s| - |r| - 1..] == t[|t| - |r|..] + [s[|s| - 1]];
      if |r| < |t| {
        assert s[|s| - (|r| + 1) - 1] == t[|t| - |r| - 1];
      }
    }
  }

  /** `s` without its trailing "/" characters. */
  function StripTrailingSlashes(s: string): (r: string)
    ensures |r| <= |s|
  {
    if s != [] && s[|s| - 1] == '/' then StripTrailingSlashes(s[..|s| - 1]) else s
  }

  /** Stripping keeps a prefix that does not end in "/" and drops only "/" characters. */
  lemma {:induction false} StripTrailingSlashesSpec(s: string)
    ensures var r := StripTrailingSlashes(s);
      && r == s[..|r|]
      && (r == [] || r[|r| - 1] != '/')
      && forall i :: |r| <= i < |s| ==> s[i] == '/'
    decreases |s|
  {
    if s != [] && s[|s| - 1] == '/' {
      var t := s[..|s| - 1];
      StripTrailingSlashesSpec(t);
      var r := StripTrailingSlashes(t);
      assert s[..|r|] == t[..|r|];
      forall i | |r| <= i < |s| ensures s[i] == '/' {
        if i < |t| {
          assert s[i] == t[i];
        }
      }
    }
  }

  /** POSIX `path.basename`: the last path segment, ignoring trailing separators. */
  function Basename(p: string): string {
    AfterLastSlash(StripTrailingSlashes(p))
  }

  /** A base name is one segment: it holds no "/". */
  lemma BasenameHasNoSlash(p: string)
    ensures '/' !in Basename(p)
  {
    AfterLastSlashSpec(StripTrailingSlashes(p));
  }

  /** POSIX `path.extname` of a name without separators: from the last "." to the end, or ""
      when there is no ".", when the only "." that counts is the first character, or for "..". */
  function Extname(name: string): (r: string)
    ensures r == [] || r[0] == '.'
  {
    var d := LastIndexOf(name, '.');
    if d <= 0 || name == ".." then "" else name[d..]
  }

  /** An extension is a suffix of the name holding exactly one ".", in front. */
  lemma ExtnameSpec(name: string)
    ensures var r := Extname(name);
      && r == name[|name| - |r|..]
      && (r == [] || '.' !in r[1..])
  {
    var d := LastIndexOf(name, '.');
    var r := Extname(name);
    LastIndexOfIsLast(name, '.');
    if r != [] {
      forall j | 0 <= j < |r| - 1 ensures r[1..][j] != '.' {
        assert r[1..][j] == name[d + 1 + j];
      }
    }
  }

  /** `s.slice(1)`. */
  function DropFirst(s: string): string {
    if s == [] then [] else s[1..]
  }
}
