/** What the decoder is the inverse of: texts written in its escape notations, to any depth. */
module EscapeEncoding {
  import opened DecodePass
  import opened SecretMarkers

  /** The single-letter escapes, in either letter case. */
  predicate LetterStandsFor(letter: CodePoint, c: CodePoint) {
    match Lower(letter)
    case 0x61 => c == 7 case 0x62 => c == 8 case 0x74 => c == 9 case 0x6E => c == 10
    case 0x76 => c == 11 case 0x66 => c == 12 case 0x72 => c == 13
    case _ => false
  }

  /** e spells the single code point c: in one of the numeric notations or as a letter escape, in
      either letter case, or as c itself when c cannot begin an escape. */
  predicate Spells(e: Text, c: CodePoint) {
    || (|e| == 3 && e[0] == PERCENT && AllHex(e[1..]) && HexValue(e[1..]) == c)
    || (IsOctalSpelling(e) && OctalValue(e[1..]) == c && c <= 0xFF)
    || (|e| == 4 && e[0] == BACKSLASH && Lower(e[1]) == LOWER_X && AllHex(e[2..]) && HexValue(e[2..]) == c)
    || (|e| in {6, 10} && e[0] == BACKSLASH && Lower(e[1]) == LOWER_U && AllHex(e[2..]) && HexValue(e[2..]) == c)
    || (|e| == 2 && e[0] == BACKSLASH && LetterStandsFor(e[1], c))
    || (e == [c] && c != PERCENT && c != BACKSLASH)
  }

  /** A backslash and one to three octal digits. */
  predicate IsOctalSpelling(e: Text) {
    2 <= |e| <= 4 && e[0] == BACKSLASH && AllOctal(e[1..])
  }

  /** What follows e does not continue it: after fewer than three octal digits no further one (unless
      it would exceed 0o377), after \u and four hex digits no four more. */
  predicate Ends(e: Text, rest: Text) {
    && (IsOctalSpelling(e) && |e| == 2 ==> rest == [] || !IsOctal(rest[0]))
    && (IsOctalSpelling(e) && |e| == 3 ==>
          rest == [] || !IsOctal(rest[0]) || 8 * OctalValue(e[1..]) + (rest[0] - 0x30) > 0xFF)
    && (|e| == 6 ==> |rest| < 4 || !AllHex(rest[..4]))
  }

  /** The escapes that do not simply spell a code point: an octal escape never exceeds 0o377, for
      its third digit is given back, and an eight-digit escape beyond Unicode becomes U+FFFD. */
  lemma OutOfRangeEscapes(s: Text)
    requires |s| > 1 && s[0] == BACKSLASH
    ensures IsOctal(s[1]) ==> Next(s).value <= 0xFF
    ensures IsOctal(s[1]) && |s| > 3 && AllOctal(s[1..4]) && OctalValue(s[1..4]) > 0xFF ==>
      Next(s) == Step(OctalValue(s[1..3]), 3)
    ensures Lower(s[1]) == LOWER_U && |s| > 9 && AllHex(s[2..10]) && HexValue(s[2..10]) > 0x10FFFF ==>
      Next(s) == Step(REPLACEMENT, 10)
  {
    if IsOctal(s[1]) {
      OctalInRange(s[1..1 + OctalRun(s)]);
      if |s| > 3 && AllOctal(s[1..4]) {
        assert s[1..4][1] == s[2] && s[1..4][2] == s[3];
      }
    }
  }

  function Flatten(pieces: seq<Text>): Text {
    if pieces == [] then [] else pieces[0] + Flatten(pieces[1..])
  }

  /** The pieces spell s, code point by code point, and none runs into the next. */
  predicate SpellsAll(pieces: seq<Text>, s: Text) {
    |pieces| == |s| &&
    (pieces == [] ||
     (Spells(pieces[0], s[0]) && Ends(pieces[0], Flatten(pieces[1..])) && SpellsAll(pieces[1..], s[1..])))
  }

  /** t is s with every code point spelled out, each in a notation of its own. */
  ghost predicate EncodingOf(t: Text, s: Text) {
    exists pieces: seq<Text> :: SpellsAll(pieces, s) && t == Flatten(pieces)
  }

  lemma OctalReads(e: Text, rest: Text)
    requires IsOctalSpelling(e) && OctalValue(e[1..]) <= 0xFF && Ends(e, rest)
    ensures var s := e + rest; IsOctal(s[1]) && OctalRun(s) == |e| - 1
  {
    var s := e + rest;
    var digits := e[1..];
    assert forall k :: 1 <= k < |e| ==> s[k] == e[k] == digits[k - 1];
    if |e| == 4 {
      assert s[1..4] == digits;
    } else if |e| == 3 && rest != [] {
      assert s[3] == rest[0];
      if IsOctal(rest[0]) {
        OneOctalDigit(digits, rest[0]);
        assert s[1..4] == digits + [rest[0]];
      }
    } else if |e| == 2 && rest != [] {
      assert s[2] == rest[0];
    }
  }

  lemma UnicodeReads(e: Text, rest: Text)
    requires |e| in {6, 10} && e[0] == BACKSLASH && Lower(e[1]) == LOWER_U && AllHex(e[2..])
    requires HexValue(e[2..]) <= 0x10FFFF && Ends(e, rest)
    ensures Next(e + rest) == Step(HexValue(e[2..]), |e|)
  {
    var s := e + rest;
    if |e| == 6 {
      assert s[2..6] == e[2..];
      if |s| > 9 {
        assert s[2..10] == e[2..] + rest[..4];
        assert forall k :: 0 <= k < 4 ==> s[2..10][4 + k] == rest[..4][k];
      }
    } else {
      assert s[2..10] == e[2..];
    }
  }

  lemma StepReadsSpelling(e: Text, c: CodePoint, rest: Text)
    requires Spells(e, c) && Ends(e, rest)
    ensures Next(e + rest) == Step(c, |e|)
  {
    var s := e + rest;
    if IsOctalSpelling(e) && OctalValue(e[1..]) == c {
      OctalReads(e, rest);
      assert s[1..|e|] == e[1..];
      assert e[1] == e[1..][0];
    } else if |e| in {6, 10} {
      UnicodeReads(e, rest);
    } else if |e| == 3 {
      assert s[1..3] == e[1..];
    } else if |e| == 4 {
      assert s[2..4] == e[2..];
    }
  }

  lemma {:induction false} DecodeFlatten(pieces: seq<Text>, s: Text)
    requires SpellsAll(pieces, s)
    ensures Decode(Flatten(pieces)) == s
  {
    if pieces != [] {
      var rest := Flatten(pieces[1..]);
      DecodeFlatten(pieces[1..], s[1..]);
      StepReadsSpelling(pieces[0], s[0], rest);
      assert (pieces[0] + rest)[|pieces[0]|..] == rest;
    }
  }

  /** Round trip: one pass undoes one encoding, whichever notations it mixes. */
  lemma DecodeUndoesEncoding(t: Text, s: Text)
    requires EncodingOf(t, s)
    ensures Decode(t) == s
  {
    var pieces :| SpellsAll(pieces, s) && t == Flatten(pieces);
    DecodeFlatten(pieces, s);
  }

  /** \u with eight hex digits that name no code point. */
  predicate BeyondUnicode(s: Text) {
    |s| > 9 && s[0] == BACKSLASH && Lower(s[1]) == LOWER_U && AllHex(s[2..10]) && HexValue(s[2..10]) > 0x10FFFF
  }

  /** The scan reads nothing else: each step takes a spelling that ends where the step does, or turns
      an escape beyond Unicode into U+FFFD, or takes one code point literally, and the last only where
      neither of the others is possible. */
  lemma StepExact(s: Text)
    requires s != []
    ensures var st := Next(s);
      || (BeyondUnicode(s) && st == Step(0xFFFD, 10))
      || (st.consumed > 1 && Spells(s[..st.consumed], st.value) && Ends(s[..st.consumed], s[st.consumed..]))
      || (st == Step(s[0], 1) && !BeyondUnicode(s)
          && forall n, c :: 1 < n <= |s| && Ends(s[..n], s[n..]) ==> !Spells(s[..n], c))
  {
    var st := Next(s);
    if st.consumed == 1 {
      LiteralOnlyOtherwise(s);
    } else if s[0] == PERCENT {
      assert s[..3][1..] == s[1..3];
    } else if IsOctal(s[1]) {
      OctalStep(s);
    } else if !BeyondUnicode(s) {
      LetterStep(s);
    }
  }

  lemma LiteralOnlyOtherwise(s: Text)
    requires s != [] && Next(s).consumed == 1
    ensures !BeyondUnicode(s)
    ensures forall n, c :: 1 < n <= |s| && Ends(s[..n], s[n..]) ==> !Spells(s[..n], c)
  {
    forall n, c | 1 < n <= |s| && Ends(s[..n], s[n..]) ensures !Spells(s[..n], c) {
      assert s[..n] + s[n..] == s;
      if Spells(s[..n], c) {
        StepReadsSpelling(s[..n], c, s[n..]);
      }
    }
  }

  lemma OctalStep(s: Text)
    requires |s| > 1 && s[0] == BACKSLASH && IsOctal(s[1])
    ensures var st := Next(s);
      Spells(s[..st.consumed], st.value) && Ends(s[..st.consumed], s[st.consumed..])
  {
    var n := 1 + OctalRun(s);
    OctalInRange(s[1..n]);
    assert s[..n][1..] == s[1..n];
    OctalEnds(s, n);
  }

  lemma OctalEnds(s: Text, n: nat)
    requires |s| > 1 && IsOctal(s[1]) && n == 1 + OctalRun(s) && s[..n][1..] == s[1..n]
    ensures Ends(s[..n], s[n..])
  {
    if n == 3 && |s| > 3 && IsOctal(s[3]) {
      OneOctalDigit(s[1..3], s[3]);
      assert s[1..4] == s[1..3] + [s[3]];
    }
  }

  lemma LetterStep(s: Text)
    requires |s| > 1 && s[0] == BACKSLASH && !IsOctal(s[1]) && Next(s).consumed > 1 && !BeyondUnicode(s)
    ensures var st := Next(s);
      Spells(s[..st.consumed], st.value) && Ends(s[..st.consumed], s[st.consumed..])
  {
    var n := Next(s).consumed;
    assert n > 2 ==> s[..n][2..] == s[2..n];
    assert s[..n][1..][0] == s[1];
    if n == 6 && |s| > 9 && AllHex(s[6..][..4]) {
      assert forall k :: 2 <= k < 10 ==> s[k] == if k < 6 then s[2..6][k - 2] else s[6..][..4][k - 6];
    }
  }

  /** chain[0] is the plain text and every later element encodes the one before it. */
  ghost predicate Nesting(chain: seq<Text>) {
    chain != [] &&
    (|chain| > 1 ==> EncodingOf(chain[|chain| - 1], chain[|chain| - 2]) && Nesting(chain[..|chain| - 1]))
  }

  lemma {:induction false} PassesUnwrapNesting(chain: seq<Text>)
    requires Nesting(chain)
    ensures Iterate(chain[|chain| - 1], |chain| - 1) == chain[0]
  {
    var last := |chain| - 1;
    if last > 0 {
      DecodeUndoesEncoding(chain[last], chain[last - 1]);
      PassesUnwrapNesting(chain[..last]);
      IterateFromDecoded(chain[last], last - 1);
    }
  }

  /** A text that shows a token is flagged however often and however it is encoded. */
  lemma NestedTokenIsFlagged(chain: seq<Text>)
    requires Nesting(chain) && Exposes(chain[0])
    ensures Flagged(chain[|chain| - 1])
  {
    PassesUnwrapNesting(chain);
    ExposedTokenIsFlagged(chain[|chain| - 1], |chain| - 1);
  }

  // Every text has encodings ------------------------------------------------------------------

  datatype Notation = Percent | Octal3 | OctalShort | HexX | UnicodeFour | UnicodeEight

  function ToHexDigit(d: nat): CodePoint
    requires d < 16
  {
    if d < 10 then 0x30 + d else 0x57 + d
  }

  function HexDigits(v: nat, width: nat): (t: Text)
    ensures |t| == width && AllHex(t)
  {
    if width == 0 then [] else HexDigits(v / 16, width - 1) + [ToHexDigit(v % 16)]
  }

  function Pow16(k: nat): nat {
    if k == 0 then 1 else 16 * Pow16(k - 1)
  }

  lemma {:induction false} HexDigitsValue(v: nat, width: nat)
    requires v < Pow16(width)
    ensures HexValue(HexDigits(v, width)) == v
  {
    if width > 0 {
      HexDigitsValue(v / 16, width - 1);
      assert HexDigits(v, width)[..width - 1] == HexDigits(v / 16, width - 1);
    }
  }

  /** c in the requested notation, or in eight digits where that notation cannot express c. */
  function Spell(c: CodePoint, n: Notation): (e: Text)
    ensures Spells(e, c) && StartsEscape(e)
  {
    assert Pow16(2) == 0x100;
    assert Pow16(4) == 0x10000 by { assert Pow16(3) == 0x1000; }
    assert Pow16(8) >= 0x110000 by {
      assert Pow16(5) == 0x100000 && Pow16(6) == 0x1000000;
      assert Pow16(7) == 0x10000000;
    }
    if n.Percent? && c <= 0xFF then
      HexDigitsValue(c, 2);
      var d := HexDigits(c, 2);
      assert ([PERCENT] + d)[1..] == d;
      [PERCENT] + d
    else if n.Octal3? && c <= 0xFF then
      OctalDigits(c)
    else if n.OctalShort? && c <= 0xFF then
      ShortOctalDigits(c)
    else if n.HexX? && c <= 0xFF then
      HexDigitsValue(c, 2);
      var d := HexDigits(c, 2);
      assert ([BACKSLASH, LOWER_X] + d)[2..] == d;
      [BACKSLASH, LOWER_X] + d
    else if n.UnicodeFour? && c <= 0xFFFF then
      HexDigitsValue(c, 4);
      var d := HexDigits(c, 4);
      assert ([BACKSLASH, LOWER_U] + d)[2..] == d;
      [BACKSLASH, LOWER_U] + d
    else
      HexDigitsValue(c, 8);
      var d := HexDigits(c, 8);
      assert ([BACKSLASH, LOWER_U] + d)[2..] == d;
      [BACKSLASH, LOWER_U] + d
  }

  function OctalDigits(c: CodePoint): (e: Text)
    requires c <= 0xFF
    ensures |e| == 4 && e[0] == BACKSLASH && AllOctal(e[1..]) && OctalValue(e[1..]) == c
  {
    var a, b, d: CodePoint := 0x30 + c / 64, 0x30 + c / 8 % 8, 0x30 + c % 8;
    OctalParts(c);
    ThreeOctalDigits(a, b, d);
    assert [BACKSLASH, a, b, d][1..] == [a, b, d];
    [BACKSLASH, a, b, d]
  }

  lemma OctalParts(c: nat)
    requires c <= 0xFF
    ensures c / 64 < 8 && c / 8 % 8 < 8 && c % 8 < 8
    ensures 64 * (c / 64) + 8 * (c / 8 % 8) + c % 8 == c
  {
    var q := c / 8;
    assert c == 8 * q + c % 8 && q == 8 * (q / 8) + q % 8 && q / 8 == c / 64;
  }

  lemma ThreeOctalDigits(a: CodePoint, b: CodePoint, d: CodePoint)
    requires IsOctal(a) && IsOctal(b) && IsOctal(d)
    ensures AllOctal([a, b, d]) && OctalValue([a, b, d]) == 64 * (a - 0x30) + 8 * (b - 0x30) + (d - 0x30)
  {
    OneOctalDigit([], a);
    OneOctalDigit([a], b);
    OneOctalDigit([a, b], d);
    assert [] + [a] == [a] && [a] + [b] == [a, b] && [a, b] + [d] == [a, b, d];
  }

  lemma OneOctalDigit(t: Text, d: CodePoint)
    requires AllOctal(t) && IsOctal(d)
    ensures AllOctal(t + [d]) && OctalValue(t + [d]) == 8 * OctalValue(t) + (d - 0x30)
  {
    assert (t + [d])[..|t|] == t;
  }

  predicate StartsEscape(e: Text) {
    e != [] && (e[0] == PERCENT || e[0] == BACKSLASH)
  }

  /** As few octal digits as c needs. */
  function ShortOctalDigits(c: CodePoint): (e: Text)
    requires c <= 0xFF
    ensures Spells(e, c) && StartsEscape(e)
  {
    OctalParts(c);
    if c < 8 then
      OneOctalDigit([], 0x30 + c);
      assert [] + [0x30 + c] == [0x30 + c] && [BACKSLASH, 0x30 + c][1..] == [0x30 + c];
      [BACKSLASH, 0x30 + c]
    else if c < 64 then
      var a, b: CodePoint := 0x30 + c / 8, 0x30 + c % 8;
      ThreeOctalDigits(0x30, a, b);
      TwoOctalDigits(a, b);
      assert [BACKSLASH, a, b][1..] == [a, b];
      [BACKSLASH, a, b]
    else
      OctalDigits(c)
  }

  lemma TwoOctalDigits(a: CodePoint, b: CodePoint)
    requires IsOctal(a) && IsOctal(b)
    ensures AllOctal([a, b]) && OctalValue([a, b]) == 8 * (a - 0x30) + (b - 0x30)
  {
    OneOctalDigit([], a);
    OneOctalDigit([a], b);
    assert [] + [a] == [a] && [a] + [b] == [a, b];
  }

  /** The pieces for s from position i on. */
  function SpellFrom(s: Text, i: nat, notations: nat -> Notation): seq<Text>
    requires i <= |s|
    decreases |s| - i
  {
    if i == |s| then [] else [Spell(s[i], notations(i))] + SpellFrom(s, i + 1, notations)
  }

  lemma {:induction false} SpellFromSpells(s: Text, i: nat, notations: nat -> Notation)
    requires i <= |s|
    ensures SpellsAll(SpellFrom(s, i, notations), s[i..])
    ensures var t := Flatten(SpellFrom(s, i, notations)); t == [] || StartsEscape(t)
    decreases |s| - i
  {
    if i < |s| {
      SpellFromSpells(s, i + 1, notations);
      var e, rest := Spell(s[i], notations(i)), SpellFrom(s, i + 1, notations);
      assert ([e] + rest)[1..] == rest && s[i..][1..] == s[i + 1..];
      EscapeEnds(e, Flatten(rest));
    }
  }

  /** The start of another escape continues nothing. */
  lemma EscapeEnds(e: Text, rest: Text)
    requires rest == [] || StartsEscape(rest)
    ensures Ends(e, rest)
  {
    assert |rest| >= 4 ==> rest[..4][0] == rest[0];
  }

  /** Any choice of notation per position gives an encoding, so the round trip is never empty. */
  lemma EveryNotationChoiceEncodes(s: Text, notations: nat -> Notation)
    ensures EncodingOf(Flatten(SpellFrom(s, 0, notations)), s)
    ensures Decode(Flatten(SpellFrom(s, 0, notations))) == s
  {
    SpellFromSpells(s, 0, notations);
    assert s[0..] == s;
    DecodeFlatten(SpellFrom(s, 0, notations), s);
  }

  /** The letter case the scan ignores: the ASCII letters, and the Kelvin sign. */
  lemma LowerExactly(c: CodePoint)
    ensures 'A' as int <= c <= 'Z' as int ==> Lower(c) == c - 'A' as int + 'a' as int
    ensures c == 0x212A ==> Lower(c) == 'k' as int
    ensures !('A' as int <= c <= 'Z' as int) && c != 0x212A ==> Lower(c) == c
  {
  }

  /** The digits that count as hexadecimal and their values, spelled out. */
  lemma HexAlphabet(c: CodePoint)
    ensures IsHex(c) <==> c in LOWER_DIGITS || c in UPPER_DIGITS
    ensures forall d :: 0 <= d < 16 ==> HexDigit(LOWER_DIGITS[d]) == d && HexDigit(UPPER_DIGITS[d]) == d
    ensures IsOctal(c) <==> c in LOWER_DIGITS[..8]
  {
    if IsHex(c) {
      assert LOWER_DIGITS[HexDigit(c)] == c || UPPER_DIGITS[HexDigit(c)] == c;
    }
    if IsOctal(c) {
      assert LOWER_DIGITS[..8][c - 0x30] == c;
    }
  }

  /** "0123456789abcdef" and "0123456789ABCDEF". */
  const LOWER_DIGITS: Text := [0x30, 0x31, 0x32, 0x33, 0x34, 0x35, 0x36, 0x37, 0x38, 0x39,
                               0x61, 0x62, 0x63, 0x64, 0x65, 0x66]
  const UPPER_DIGITS: Text := [0x30, 0x31, 0x32, 0x33, 0x34, 0x35, 0x36, 0x37, 0x38, 0x39,
                               0x41, 0x42, 0x43, 0x44, 0x45, 0x46]

  // The price of failing closed -------------------------------------------------------------

  /** "%2525...2541" with depth copies of "25". */
  function NestedPercent(depth: nat): Text {
    [PERCENT] + Repeat25(depth) + [0x34, 0x31]
  }

  function Repeat25(n: nat): (t: Text)
    ensures |t| == 2 * n && forall k :: 0 <= k < |t| ==> t[k] == 0x32 || t[k] == 0x35
    ensures n > 0 ==> t[0] == 0x32 && t[1] == 0x35
  {
    if n == 0 then [] else [0x32, 0x35] + Repeat25(n - 1)
  }

  lemma {:induction false} PlainTextConverged(t: Text)
    requires PERCENT !in t && BACKSLASH !in t
    ensures Converged(t)
  {
    if t != [] {
      PlainTextConverged(t[1..]);
    }
  }

  lemma TwoHexDigits(a: CodePoint, b: CodePoint)
    requires IsHex(a) && IsHex(b)
    ensures AllHex([a, b]) && HexValue([a, b]) == 16 * HexDigit(a) + HexDigit(b)
  {
    assert [a, b][..1] == [a] && [a][..0] == [];
    assert HexValue([a]) == HexDigit(a);
  }

  lemma PercentPass(a: CodePoint, b: CodePoint, rest: Text)
    requires IsHex(a) && IsHex(b)
    ensures Decode([PERCENT, a, b] + rest) == [16 * HexDigit(a) + HexDigit(b)] + Decode(rest)
  {
    var s := [PERCENT, a, b] + rest;
    TwoHexDigits(a, b);
    assert s[1..3] == [a, b] && s[3..] == rest;
  }

  lemma NestedPercentShape(depth: nat)
    requires depth > 0
    ensures var tail := Repeat25(depth - 1) + [0x34, 0x31];
      NestedPercent(depth) == [PERCENT, 0x32, 0x35] + tail && NestedPercent(depth - 1) == [PERCENT] + tail
  {
  }

  lemma NestedPercentPass(depth: nat)
    requires depth > 0
    ensures Decode(NestedPercent(depth)) == NestedPercent(depth - 1)
  {
    var tail := Repeat25(depth - 1) + [0x34, 0x31];
    NestedPercentShape(depth);
    PercentPass(0x32, 0x35, tail);
    PlainTextConverged(tail);
  }

  lemma InnermostPass()
    ensures Decode(NestedPercent(0)) == [0x41] && Converged([0x41])
  {
    assert NestedPercent(0) == [PERCENT, 0x34, 0x31] + [];
    PercentPass(0x34, 0x31, []);
    PlainTextConverged([0x41]);
  }

  /** Each pass peels one layer off. */
  lemma {:induction false} Peels(depth: nat, n: nat)
    requires n <= depth
    ensures Iterate(NestedPercent(depth), n) == NestedPercent(depth - n)
  {
    if n > 0 {
      Peels(depth, n - 1);
      NestedPercentPass(depth - n + 1);
    }
  }

  lemma PeeledOut(depth: nat, n: nat)
    requires n > depth
    ensures Iterate(NestedPercent(depth), n) == [0x41] && Converged(Iterate(NestedPercent(depth), n))
  {
    Peels(depth, depth);
    InnermostPass();
    ConvergedStays(NestedPercent(depth), depth + 1, n);
  }

  /** No character of a nested percent escape is an s. */
  lemma NestedPercentHasNoToken(depth: nat)
    ensures !Exposes(NestedPercent(depth)) && !LegacyMatch(NestedPercent(depth))
    ensures NestedPercent(depth) != Decode(NestedPercent(depth))
  {
    if depth == 0 {
      InnermostPass();
    } else {
      NestedPercentPass(depth);
      assert |NestedPercent(depth)| != |NestedPercent(depth - 1)|;
    }
  }

  lemma NestedPercentConverges(depth: nat, n: nat)
    ensures Converged(Iterate(NestedPercent(depth), n)) <==> n > depth
  {
    if n <= depth {
      Peels(depth, n);
      NestedPercentHasNoToken(depth - n);
    } else {
      PeeledOut(depth, n);
    }
  }

  lemma NestedPercentNeverShows(depth: nat, n: nat)
    ensures !Exposes(Iterate(NestedPercent(depth), n))
  {
    if n <= depth {
      Peels(depth, n);
      NestedPercentHasNoToken(depth - n);
    } else {
      PeeledOut(depth, n);
    }
  }

  /** The detector is deliberately not exact: a text whose decoding takes more than ten passes is
      flagged although no number of passes ever shows a token. */
  lemma FailClosedIsNotExact(depth: nat)
    ensures Flagged(NestedPercent(depth)) <==> depth >= 10
    ensures forall n: nat :: !Exposes(Iterate(NestedPercent(depth), n))
  {
    forall n: nat ensures !Exposes(Iterate(NestedPercent(depth), n)) {
      NestedPercentNeverShows(depth, n);
    }
    NestedPercentHasNoToken(depth);
    NestedPercentConverges(depth, MAX_DECODE_PASSES);
  }
}
