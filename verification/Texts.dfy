/** The text helpers of the evidence import: Python's split, strip and lower on strings. */
module Texts {

  const MAX_TEXT: nat := 240

  /** What str.split and str.strip take for whitespace. */
  predicate IsSpace(c: char) {
    var n := c as int;
    || 9 <= n <= 13 || 28 <= n <= 32 || n == 0x85 || n == 0xA0 || n == 0x1680
    || 0x2000 <= n <= 0x200A || n == 0x2028 || n == 0x2029 || n == 0x202F || n == 0x205F || n == 0x3000
  }

  function WordLength(s: string): (n: nat)
    ensures n <= |s|
    ensures s != "" && !IsSpace(s[0]) ==> n > 0
  {
    if s == "" || IsSpace(s[0]) then 0 else 1 + WordLength(s[1..])
  }

  /** s.split() */
  function Words(s: string): seq<string>
    decreases |s|
  {
    if s == "" then []
    else if IsSpace(s[0]) then Words(s[1..])
    else [s[..WordLength(s)]] + Words(s[WordLength(s)..])
  }

  /** " ".join(words) */
  function Join(words: seq<string>): string {
    if words == [] then "" else if |words| == 1 then words[0] else words[0] + " " + Join(words[1..])
  }

  /** " ".join(s.split()): what _text makes of a text. */
  function Collapse(s: string): string {
    Join(Words(s))
  }

  /** _text with required=True accepts. */
  predicate IsRequiredText(s: string) {
    0 < |Collapse(s)| <= MAX_TEXT
  }

  /** s.strip() */
  function Strip(s: string): string
    decreases |s|
  {
    if s == "" then ""
    else if IsSpace(s[0]) then Strip(s[1..])
    else if IsSpace(s[|s| - 1]) then Strip(s[..|s| - 1])
    else s
  }

  /** s.lower(), as far as the result can be ASCII: A-Z and the Kelvin sign. */
  function Lower(s: string): (t: string)
    ensures |t| == |s|
  {
    seq(|s|, i requires 0 <= i < |s| => LowerChar(s[i]))
  }

  function LowerChar(c: char): char {
    if 'A' <= c <= 'Z' then (c as int + 32) as char else if c as int == 0x212A then 'k' else c
  }

  predicate SpaceFree(s: string) {
    forall i :: 0 <= i < |s| ==> !IsSpace(s[i])
  }

  lemma {:induction false} WholeWord(s: string)
    requires SpaceFree(s)
    ensures WordLength(s) == |s|
  {
    if s != "" {
      WholeWord(s[1..]);
    }
  }

  /** A text without whitespace is left alone. */
  lemma SpaceFreeStays(s: string)
    requires SpaceFree(s)
    ensures Collapse(s) == s
  {
    WholeWord(s);
    if s != "" {
      assert s[..|s|] == s && Words(s[|s|..]) == [];
      assert Words(s) == [s];
    }
  }

  /** A text that does not start with whitespace keeps its first character. */
  lemma FirstStays(s: string)
    requires s != "" && !IsSpace(s[0])
    ensures Collapse(s) != "" && Collapse(s)[0] == s[0]
  {
    var words := Words(s);
    assert words[0] == s[..WordLength(s)];
    assert Join(words)[0] == words[0][0];
  }

  // Words and spaces ----------------------------------------------------------------------------

  predicate AreWords(words: seq<string>) {
    forall i :: 0 <= i < |words| ==> words[i] != "" && SpaceFree(words[i])
  }

  lemma {:induction false} WordLengthExact(s: string)
    ensures SpaceFree(s[..WordLength(s)])
    ensures WordLength(s) < |s| ==> IsSpace(s[WordLength(s)])
  {
    if s != "" && !IsSpace(s[0]) {
      WordLengthExact(s[1..]);
      var n := WordLength(s);
      assert s[..n] == [s[0]] + s[1..][..n - 1];
    }
  }

  /** split yields words. */
  lemma {:induction false} WordsAreWords(s: string)
    ensures AreWords(Words(s))
    decreases |s|
  {
    if s != "" {
      if IsSpace(s[0]) {
        WordsAreWords(s[1..]);
      } else {
        WordLengthExact(s);
        WordsAreWords(s[WordLength(s)..]);
      }
    }
  }

  lemma {:induction false} WordLengthOf(word: string, rest: string)
    requires SpaceFree(word) && (rest == "" || IsSpace(rest[0]))
    ensures WordLength(word + rest) == |word|
  {
    if word != "" {
      WordLengthOf(word[1..], rest);
      assert (word + rest)[1..] == word[1..] + rest;
    } else {
      assert word + rest == rest;
    }
  }

  /** Joining words by single spaces and splitting gives the words back. */
  lemma {:induction false} SplitUndoesJoin(words: seq<string>)
    requires AreWords(words)
    ensures Words(Join(words)) == words
  {
    if |words| == 1 {
      WholeWord(words[0]);
      assert words[0][..|words[0]|] == words[0] && words[0][|words[0]|..] == "" && words == [words[0]];
    } else if words != [] {
      var w, rest := words[0], Join(words[1..]);
      SplitUndoesJoin(words[1..]);
      SplitFirst(w, rest);
      assert Join(words) == w + " " + rest && words == [w] + words[1..];
    }
  }

  lemma SplitFirst(w: string, rest: string)
    requires w != "" && SpaceFree(w)
    ensures Words(w + " " + rest) == [w] + Words(rest)
  {
    var s := w + " " + rest;
    assert s == w + (" " + rest);
    WordLengthOf(w, " " + rest);
    assert s[..|w|] == w && s[|w|..] == " " + rest && (" " + rest)[1..] == rest;
  }

  /** _text normalises: it keeps the words, in order, and doing it twice changes nothing. */
  lemma CollapseNormalises(s: string)
    ensures Words(Collapse(s)) == Words(s) && Collapse(Collapse(s)) == Collapse(s)
  {
    WordsAreWords(s);
    SplitUndoesJoin(Words(s));
  }

  predicate AllSpace(s: string) {
    forall i :: 0 <= i < |s| ==> IsSpace(s[i])
  }

  predicate Stripped(s: string, before: string, core: string, after: string) {
    s == before + core + after && AllSpace(before) && AllSpace(after)
  }

  lemma SpaceInFront(c: char, s: string, before: string, core: string, after: string)
    requires IsSpace(c) && Stripped(s, before, core, after)
    ensures Stripped([c] + s, [c] + before, core, after)
  {
    assert [c] + (before + core + after) == ([c] + before) + core + after;
  }

  lemma SpaceBehind(s: string, c: char, before: string, core: string, after: string)
    requires IsSpace(c) && Stripped(s, before, core, after)
    ensures Stripped(s + [c], before, core, after + [c])
  {
    assert (before + core + after) + [c] == before + core + (after + [c]);
  }

  predicate NoSpaceAtEnds(s: string) {
    s != "" ==> !IsSpace(s[0]) && !IsSpace(s[|s| - 1])
  }

  /** strip removes exactly the whitespace at both ends. */
  lemma {:induction false} StripExactly(s: string) returns (before: string, after: string)
    ensures Stripped(s, before, Strip(s), after) && NoSpaceAtEnds(Strip(s))
    decreases |s|
  {
    before, after := "", "";
    if s != "" && IsSpace(s[0]) {
      before, after := StripExactly(s[1..]);
      SpaceInFront(s[0], s[1..], before, Strip(s), after);
      assert [s[0]] + s[1..] == s;
      before := [s[0]] + before;
    } else if s != "" && IsSpace(s[|s| - 1]) {
      before, after := StripExactly(s[..|s| - 1]);
      SpaceBehind(s[..|s| - 1], s[|s| - 1], before, Strip(s), after);
      assert s[..|s| - 1] + [s[|s| - 1]] == s;
      after := after + [s[|s| - 1]];
    } else {
      assert "" + s + "" == s;
    }
  }

  // The tables ----------------------------------------------------------------------------------

  const UPPER := "ABCDEFGHIJKLMNOPQRSTUVWXYZ"
  const LOWER := "abcdefghijklmnopqrstuvwxyz"

  /** The whitespace characters, one by one. */
  const SPACES: seq<int> := [
    9, 10, 11, 12, 13, 28, 29, 30, 31, 32, 0x85, 0xA0, 0x1680, 0x2000, 0x2001, 0x2002, 0x2003, 0x2004, 0x2005,
    0x2006, 0x2007, 0x2008, 0x2009, 0x200A, 0x2028, 0x2029, 0x202F, 0x205F, 0x3000]

  lemma SpacesExactly(c: char)
    ensures IsSpace(c) <==> c as int in SPACES
  {
  }

  lemma LowerExactly(c: char, i: nat)
    requires i < 26
    ensures LowerChar(UPPER[i]) == LOWER[i] && LowerChar(LOWER[i]) == LOWER[i]
    ensures c !in UPPER && c as int != 0x212A ==> LowerChar(c) == c
  {
    if 'A' <= c <= 'Z' {
      assert UPPER[c as int - 'A' as int] == c;
    }
  }
}
