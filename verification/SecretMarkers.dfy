/** The boundary-prefixed "sk-" detector of evaluation/secret_markers.py. */
module SecretMarkers {
  import opened DecodePass

  const MAX_DECODE_PASSES: nat := 10

  /** The class [a-z0-9] of the patterns. */
  predicate IsWordChar(c: CodePoint) {
    0x61 <= c <= 0x7A || 0x30 <= c <= 0x39
  }

  /** The lower-cased text reads "sk-" at p; the patterns are searched in lower case. */
  predicate TokenAt(t: Text, p: nat) {
    p + 2 < |t| && Lower(t[p]) == 0x73 && Lower(t[p + 1]) == 0x6B && t[p + 2] == 0x2D
  }

  /** _BOUNDARY_SK_PREFIX matches at p: "sk-" not preceded by [a-z0-9]. */
  predicate BoundaryTokenAt(t: Text, p: nat) {
    TokenAt(t, p) && (p > 0 ==> !IsWordChar(Lower(t[p - 1])))
  }

  /** _LEGACY_SK_PREFIX matches at p: also straight after %xx, \n, \r or \t. */
  predicate LegacyTokenAt(t: Text, p: nat) {
    || BoundaryTokenAt(t, p)
    || (TokenAt(t, p) && p >= 3 && t[p - 3] == PERCENT && IsHex(t[p - 2]) && IsHex(t[p - 1]))
    || (TokenAt(t, p) && p >= 2 && t[p - 2] == BACKSLASH && Lower(t[p - 1]) in {0x6E, 0x72, 0x74})
  }

  /** t shows a boundary-prefixed token to the case-insensitive search. */
  predicate Exposes(t: Text) {
    exists p: nat | p < |t| :: BoundaryTokenAt(t, p)
  }

  predicate LegacyMatch(t: Text) {
    exists p: nat | p < |t| :: LegacyTokenAt(t, p)
  }

  /** The value of contains_boundary_prefixed_sk_token on a string. */
  predicate Flagged(t: Text) {
    || LegacyMatch(t)
    || !Converged(Iterate(t, MAX_DECODE_PASSES))
    || Exposes(Iterate(t, MAX_DECODE_PASSES))
  }

  /** The flag is set exactly when the view is a fixpoint, and the view is the tenth iterate
      whether or not the loop stopped early. */
  method CanonicalSecretMarkerView(value: Text) returns (view: Text, converged: bool)
    ensures view == Iterate(value, MAX_DECODE_PASSES)
    ensures converged <==> Converged(view)
  {
    view := value;
    for k := 0 to MAX_DECODE_PASSES
      invariant view == Iterate(value, k)
    {
      var nextView := DecodeOnePass(view);
      if nextView == view {
        ConvergedStays(value, k, MAX_DECODE_PASSES);
        return view, true;
      }
      view := nextView;
    }
    var again := DecodeOnePass(view);
    converged := again == view;
  }

  /** Python accepts any object; anything but a string is simply not a marker. */
  datatype Value = Str(text: Text) | NotAString

  method ContainsBoundaryPrefixedSkToken(value: Value) returns (found: bool)
    ensures found <==> value.Str? && Flagged(value.text)
    ensures value.Str? ==>
      (found <==> LegacyMatch(value.text) || !Converged(Iterate(value.text, MAX_DECODE_PASSES))
                  || exists n: nat :: Exposes(Iterate(value.text, n)))
  {
    if value.NotAString? {
      return false;
    }
    FlaggedExactly(value.text);
    if LegacyMatch(value.text) {
      return true;
    }
    var view, converged := CanonicalSecretMarkerView(value.text);
    if !converged {
      return true;
    }
    found := Exposes(view);
  }

  // Survival ------------------------------------------------------------------------------

  /** No escape can swallow 's', 'k', '-' or the non-word character before them, so a token at
      p in s is found again after the pass, still at a boundary. */
  lemma {:induction false} TokenSurvivesPass(s: Text, p: nat) returns (q: nat)
    requires BoundaryTokenAt(s, p)
    ensures q < |Decode(s)| && BoundaryTokenAt(Decode(s), q)
    ensures p > 0 ==> q > 0 && !IsWordChar(Lower(Decode(s)[q - 1]))
  {
    var st := Next(s);
    var rest := s[st.consumed..];
    if p == 0 {
      TokenDecodesToItself(s);
      q := 0;
    } else {
      EscapesEndInWordChars(s, p);
      assert st.consumed <= p;
      q := TokenSurvivesPass(rest, p - st.consumed);
      if st.consumed == p {
        TokenDecodesToItself(rest);
        q := 0;
      }
      q := q + 1;
    }
  }

  lemma LiteralStaysPut(s: Text)
    requires s != [] && s[0] != PERCENT && s[0] != BACKSLASH
    ensures Decode(s) == [s[0]] + Decode(s[1..])
  {
  }

  /** A text that starts with the token starts with it after a pass. */
  lemma TokenDecodesToItself(s: Text)
    requires TokenAt(s, 0)
    ensures TokenAt(Decode(s), 0)
  {
    LiteralStaysPut(s);
    LiteralStaysPut(s[1..]);
    LiteralStaysPut(s[1..][1..]);
  }

  /** The step at the front of s stops at or before a token at p; if it is an escape, it stops
      strictly before the boundary character. */
  lemma EscapesEndInWordChars(s: Text, p: nat)
    requires p > 0 && BoundaryTokenAt(s, p)
    ensures Next(s).consumed == 1 || Next(s).consumed < p
  {
    var st := Next(s);
    if st.consumed > 1 {
      EscapeBody(s);
    }
  }

  lemma {:induction false} TokenSurvives(t: Text, m: nat, n: nat)
    requires m <= n && Exposes(Iterate(t, m))
    ensures Exposes(Iterate(t, n))
  {
    if m < n {
      TokenSurvives(t, m, n - 1);
      var s := Iterate(t, n - 1);
      var p: nat :| p < |s| && BoundaryTokenAt(s, p);
      var q := TokenSurvivesPass(s, p);
    }
  }

  // Main results --------------------------------------------------------------------------

  /** Nothing hides: a token exposed by any number of passes is flagged. */
  lemma ExposedTokenIsFlagged(t: Text, n: nat)
    requires Exposes(Iterate(t, n))
    ensures Flagged(t)
  {
    if Converged(Iterate(t, MAX_DECODE_PASSES)) {
      if n <= MAX_DECODE_PASSES {
        TokenSurvives(t, n, MAX_DECODE_PASSES);
      } else {
        ConvergedStays(t, MAX_DECODE_PASSES, n);
      }
    }
  }

  /** Apart from the legacy pattern and the fail-closed case the detector is exact: it flags a
      text if and only if some number of passes exposes a token. */
  lemma FlaggedExactly(t: Text)
    ensures Flagged(t) <==>
      LegacyMatch(t) || !Converged(Iterate(t, MAX_DECODE_PASSES)) || exists n: nat :: Exposes(Iterate(t, n))
  {
    if n: nat :| Exposes(Iterate(t, n)) {
      ExposedTokenIsFlagged(t, n);
    }
  }

  /** A text of at most ten code points is always decoded to its fixpoint. */
  lemma ShortTextsConverge(t: Text)
    requires |t| <= MAX_DECODE_PASSES
    ensures Converged(Iterate(t, MAX_DECODE_PASSES))
  {
    ReachesFixpoint(t, MAX_DECODE_PASSES);
  }

  // The patterns in characters ----------------------------------------------------------------

  /** An ASCII letter or digit, or the Kelvin sign, which lower-cases to k. */
  predicate IsAlphanumeric(c: CodePoint) {
    || 'a' as int <= c <= 'z' as int || 'A' as int <= c <= 'Z' as int || '0' as int <= c <= '9' as int
    || c == 0x212A
  }

  /** t[p..p + 3] is "sk-" in any letter case. */
  predicate ReadsSk(t: Text, p: nat) {
    && p + 2 < |t|
    && (t[p] == 's' as int || t[p] == 'S' as int)
    && (t[p + 1] == 'k' as int || t[p + 1] == 'K' as int || t[p + 1] == 0x212A)
    && t[p + 2] == '-' as int
  }

  predicate IsBreakLetter(c: CodePoint) {
    c in ['n' as int, 'N' as int, 'r' as int, 'R' as int, 't' as int, 'T' as int]
  }

  /** What the two patterns match, read off the text itself. */
  lemma PatternsInCharacters(t: Text, p: nat)
    ensures BoundaryTokenAt(t, p) <==> ReadsSk(t, p) && (p > 0 ==> !IsAlphanumeric(t[p - 1]))
    ensures LegacyTokenAt(t, p) <==>
      (&& ReadsSk(t, p)
       && (|| (p > 0 ==> !IsAlphanumeric(t[p - 1]))
           || (p >= 3 && t[p - 3] == '%' as int && IsHex(t[p - 2]) && IsHex(t[p - 1]))
           || (p >= 2 && t[p - 2] == '\\' as int && IsBreakLetter(t[p - 1]))))
  {
  }
}
