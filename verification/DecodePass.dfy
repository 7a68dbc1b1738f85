/** One decoding pass over a text, as evaluation/secret_markers.py performs it. */
module DecodePass {

  /** The values Python's chr accepts; every element of a Text is one of them. */
  type CodePoint = c: int | 0 <= c <= 0x10FFFF
  type Text = seq<CodePoint>

  const PERCENT: CodePoint := 0x25
  const BACKSLASH: CodePoint := 0x5C
  const LOWER_U: CodePoint := 0x75
  const LOWER_X: CodePoint := 0x78
  const REPLACEMENT: CodePoint := 0xFFFD

  predicate IsHex(c: CodePoint) {
    0x30 <= c <= 0x39 || 0x41 <= c <= 0x46 || 0x61 <= c <= 0x66
  }

  predicate IsOctal(c: CodePoint) {
    0x30 <= c <= 0x37
  }

  predicate AllHex(t: Text) {
    forall k :: 0 <= k < |t| ==> IsHex(t[k])
  }

  predicate AllOctal(t: Text) {
    forall k :: 0 <= k < |t| ==> IsOctal(t[k])
  }

  function HexDigit(c: CodePoint): (d: nat)
    requires IsHex(c)
    ensures d < 16
  {
    if c <= 0x39 then c - 0x30 else if c <= 0x46 then c - 0x37 else c - 0x57
  }

  /** Python's int(t, 16). */
  function HexValue(t: Text): (v: nat)
    requires AllHex(t)
    ensures |t| == 0 ==> v == 0
    ensures |t| == 1 ==> v <= 0xF
    ensures |t| == 2 ==> v <= 0xFF
    ensures |t| == 3 ==> v <= 0xFFF
    ensures |t| == 4 ==> v <= 0xFFFF
  {
    if t == [] then 0 else 16 * HexValue(t[..|t| - 1]) + HexDigit(t[|t| - 1])
  }

  /** Python's int(t, 8). */
  function OctalValue(t: Text): nat
    requires AllOctal(t)
  {
    if t == [] then 0 else 8 * OctalValue(t[..|t| - 1]) + (t[|t| - 1] - 0x30)
  }

  /** str.lower on one code point, wherever the result is a single ASCII character: A-Z and
      the Kelvin sign U+212A. No other code point lower-cases into the detector's alphabet. */
  function Lower(c: CodePoint): CodePoint {
    if 0x41 <= c <= 0x5A then c + 0x20 else if c == 0x212A then 0x6B else c
  }

  /** The control character a single-letter escape stands for: \a \b \f \n \r \t \v. */
  function SimpleEscapes(): map<CodePoint, CodePoint> {
    map[0x61 := 7, 0x62 := 8, 0x66 := 12, 0x6E := 10, 0x72 := 13, 0x74 := 9, 0x76 := 11]
  }

  /** What the scan emits for the front of the remaining text and how far it advances. */
  datatype Step = Step(value: CodePoint, consumed: nat)

  /** The number of octal digits taken after a backslash: as many as there are, up to three,
      one fewer when the three together exceed 0o377. */
  function OctalRun(s: Text): (k: nat)
    requires |s| > 1 && IsOctal(s[1])
    ensures 1 <= k <= 3 && 1 + k <= |s| && AllOctal(s[1..1 + k])
  {
    if |s| > 2 && IsOctal(s[2]) then
      if |s| > 3 && IsOctal(s[3]) && OctalValue(s[1..4]) <= 0xFF then 3 else 2
    else 1
  }

  lemma OctalInRange(t: Text)
    requires AllOctal(t) && (|t| <= 2 || (|t| == 3 && OctalValue(t) <= 0xFF))
    ensures OctalValue(t) <= 0xFF
  {
    if 1 <= |t| <= 2 {
      assert OctalValue(t[..|t| - 1]) <= 7 by {
        assert |t| == 2 ==> t[..1][..0] == [] && OctalValue(t[..1]) == t[0] - 0x30;
      }
    }
  }

  /** The escape at the front of s, or its first code point taken literally. */
  function Next(s: Text): (st: Step)
    requires s != []
    ensures 1 <= st.consumed <= |s|
    ensures st.consumed == 1 ==> st.value == s[0]
    ensures st.consumed > 1 ==> s[0] == PERCENT || s[0] == BACKSLASH
  {
    if s[0] == PERCENT && |s| > 2 && AllHex(s[1..3]) then
      Step(HexValue(s[1..3]), 3)
    else if s[0] == BACKSLASH && |s| > 1 then
      var low := Lower(s[1]);
      if IsOctal(s[1]) then
        var k := OctalRun(s);
        OctalInRange(s[1..1 + k]);
        Step(OctalValue(s[1..1 + k]), 1 + k)
      else if low in SimpleEscapes() then
        Step(SimpleEscapes()[low], 2)
      else if low == LOWER_X && |s| > 3 && AllHex(s[2..4]) then
        Step(HexValue(s[2..4]), 4)
      else if low == LOWER_U && |s| > 9 && AllHex(s[2..10]) then
        Step(if HexValue(s[2..10]) <= 0x10FFFF then HexValue(s[2..10]) else REPLACEMENT, 10)
      else if low == LOWER_U && |s| > 5 && AllHex(s[2..6]) then
        Step(HexValue(s[2..6]), 6)
      else
        Step(s[0], 1)
    else
      Step(s[0], 1)
  }

  /** What may follow the first character inside an escape. */
  predicate InEscapeBody(c: CodePoint) {
    IsHex(c) || Lower(c) in {0x6E, 0x72, 0x74, 0x76, LOWER_X, LOWER_U}
  }

  lemma EscapeBody(s: Text)
    requires s != [] && Next(s).consumed > 1
    ensures forall k :: 1 <= k < Next(s).consumed ==> InEscapeBody(s[k])
  {
    forall k | 1 <= k < Next(s).consumed ensures InEscapeBody(s[k]) {
      if s[0] == PERCENT {
        assert s[k] == s[1..3][k - 1];
      } else if IsOctal(s[1]) {
        assert s[k] == s[1..1 + OctalRun(s)][k - 1];
      } else if k > 1 {
        assert s[k] == s[2..Next(s).consumed][k - 2];
      }
    }
  }

  /** The text one pass produces. */
  function Decode(s: Text): Text {
    if s == [] then [] else [Next(s).value] + Decode(s[Next(s).consumed..])
  }

  method DecodeOnePass(s: Text) returns (output: Text)
    ensures output == Decode(s)
  {
    output := [];
    var i, n := 0, |s|;
    while i < n
      invariant 0 <= i <= n
      invariant output + Decode(s[i..]) == Decode(s)
    {
      var value, j := ReadStep(s, i);
      OneStepFurther(s, i, value, j, output);
      output, i := output + [value], j;
    }
  }

  lemma OneStepFurther(s: Text, i: nat, value: CodePoint, j: nat, output: Text)
    requires i < j <= |s| && Next(s[i..]) == Step(value, j - i)
    ensures (output + [value]) + Decode(s[j..]) == output + Decode(s[i..])
  {
    assert s[i..][j - i..] == s[j..];
    assert Decode(s[i..]) == [value] + Decode(s[j..]);
  }

  /** One turn of the scan at index i: what is appended and the next index. */
  method ReadStep(s: Text, i: nat) returns (value: CodePoint, end: nat)
    requires i < |s|
    ensures i < end <= |s| && Next(s[i..]) == Step(value, end - i)
  {
    ghost var rest := s[i..];
    var n := |s|;
    value, end := s[i], i + 1;
    if s[i] == PERCENT && i + 2 < n && IsHex(s[i + 1]) && IsHex(s[i + 2]) {
      assert s[i + 1..i + 3] == rest[1..3];
      value, end := HexValue(s[i + 1..i + 3]), i + 3;
    } else if s[i] == BACKSLASH && i + 1 < n {
      var c := s[i + 1];
      if IsOctal(c) {
        value, end := ReadOctal(s, i);
      } else {
        value, end := ReadLetterEscape(s, i);
      }
    }
  }

  method ReadLetterEscape(s: Text, i: nat) returns (value: CodePoint, end: nat)
    requires i + 1 < |s| && s[i] == BACKSLASH && !IsOctal(s[i + 1])
    ensures i < end <= |s| && Next(s[i..]) == Step(value, end - i)
  {
    ghost var rest := s[i..];
    assert |rest| > 3 ==> rest[2..4] == s[i + 2..i + 4];
    assert |rest| > 5 ==> rest[2..6] == s[i + 2..i + 6];
    assert |rest| > 9 ==> rest[2..10] == s[i + 2..i + 10];
    var n, low := |s|, Lower(s[i + 1]);
    value, end := s[i], i + 1;
    if low in SimpleEscapes() {
      value, end := SimpleEscapes()[low], i + 2;
    } else if low == LOWER_X && i + 3 < n && AllHex(s[i + 2..i + 4]) {
      value, end := HexValue(s[i + 2..i + 4]), i + 4;
    } else if low == LOWER_U && i + 9 < n && AllHex(s[i + 2..i + 10]) {
      var codepoint := HexValue(s[i + 2..i + 10]);
      value, end := if codepoint <= 0x10FFFF then codepoint else REPLACEMENT, i + 10;
    } else if low == LOWER_U && i + 5 < n && AllHex(s[i + 2..i + 6]) {
      value, end := HexValue(s[i + 2..i + 6]), i + 6;
    }
  }

  /** The octal branch of the scan: advance j over the digits, then back off above 0o377. */
  method ReadOctal(s: Text, i: nat) returns (value: CodePoint, end: nat)
    requires i + 1 < |s| && s[i] == BACKSLASH && IsOctal(s[i + 1])
    ensures i < end <= |s| && Next(s[i..]) == Step(value, end - i)
  {
    ghost var rest := s[i..];
    var n, j := |s|, i + 1;
    while j < n && j < i + 4 && IsOctal(s[j])
      invariant i + 1 <= j <= n && j <= i + 4
      invariant forall k :: i + 1 <= k < j ==> IsOctal(s[k])
    {
      j := j + 1;
    }
    assert |rest| > 3 ==> rest[1..4] == s[i + 1..i + 4];
    if j - (i + 1) == 3 && OctalValue(s[i + 1..j]) > 0xFF {
      j := j - 1;
    }
    assert rest[1..j - i] == s[i + 1..j];
    OctalInRange(s[i + 1..j]);
    value, end := OctalValue(s[i + 1..j]), j;
  }

  /** n passes. */
  function Iterate(t: Text, n: nat): Text {
    if n == 0 then t else Decode(Iterate(t, n - 1))
  }

  predicate Converged(t: Text) {
    Decode(t) == t
  }

  /** A pass never lengthens a text, and it changes a text exactly when it shortens it. */
  lemma {:induction false} DecodeShrinks(s: Text)
    ensures |Decode(s)| <= |s|
    ensures Decode(s) != s <==> |Decode(s)| < |s|
  {
    if s != [] {
      DecodeShrinks(s[Next(s).consumed..]);
      if Next(s).consumed == 1 {
        assert s == [s[0]] + s[1..];
      }
    }
  }

  lemma {:induction false} ConvergedStays(t: Text, m: nat, n: nat)
    requires m <= n && Converged(Iterate(t, m))
    ensures Iterate(t, n) == Iterate(t, m)
  {
    if m < n {
      ConvergedStays(t, m, n - 1);
    }
  }

  /** Each pass before convergence costs at least one code point. */
  lemma {:induction false} PassesAreBounded(t: Text, n: nat)
    ensures Converged(Iterate(t, n)) || |Iterate(t, n)| + n <= |t|
  {
    DecodeShrinks(Iterate(t, n));
    if n > 0 {
      PassesAreBounded(t, n - 1);
      if Converged(Iterate(t, n - 1)) {
        ConvergedStays(t, n - 1, n);
      } else {
        DecodeShrinks(Iterate(t, n - 1));
      }
    }
  }

  /** Iteration reaches a fixpoint within |t| passes and never leaves it. */
  lemma {:induction false} ReachesFixpoint(t: Text, n: nat)
    requires |t| <= n
    ensures Converged(Iterate(t, n)) && Iterate(t, n) == Iterate(t, |t|)
  {
    PassesAreBounded(t, |t|);
    ConvergedStays(t, |t|, n);
  }

  lemma {:induction false} IterateFromDecoded(t: Text, n: nat)
    ensures Iterate(Decode(t), n) == Iterate(t, n + 1)
  {
    if n > 0 {
      IterateFromDecoded(t, n - 1);
    }
  }
}
