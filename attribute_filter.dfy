/**
 * Which wire attributes are stored on the canonical span
 * (`should_keep_attribute`). The regular expression
 * `gen_ai\.(prompt|completion)\.\d+\.(content|role)` is searched for
 * anywhere in the key (the search is unanchored); it is hand-coded here as
 * a scan, and `HasPatternSubstring` is the independent definition of the
 * same question through the pattern's language.
 */
module AttributeFilter {
  import opened Text
  import opened AttributeKeys

  /** The number of leading digits of `s`. */
  function DigitRun(s: string): (n: nat)
    ensures n <= |s|
    ensures AllDigits(s[..n])
    ensures n < |s| ==> !IsDigit(s[n])
  {
    if |s| > 0 && IsDigit(s[0]) then 1 + DigitRun(s[1..]) else 0
  }

  /**
   * `\d+\.(content|role)` matches at the start of `t`. The digits are
   * followed by a `.`, which is no digit, so a match must take the whole
   * leading digit run.
   */
  predicate IndexedFieldPrefix(t: string)
  {
    var d := DigitRun(t);
    d > 0 && (StartsWith(t[d..], ".content") || StartsWith(t[d..], ".role"))
  }

  /** The pattern matches starting at the first character of `s`. */
  predicate MatchesAtStart(s: string)
  {
    || (StartsWith(s, PROMPT_STEM) && IndexedFieldPrefix(s[|PROMPT_STEM|..]))
    || (StartsWith(s, COMPLETION_STEM) && IndexedFieldPrefix(s[|COMPLETION_STEM|..]))
  }

  /** `Regex::is_match`: the pattern matches at some position of `s`. */
  predicate ContainsIndexedContent(s: string)
  {
    MatchesAtStart(s) || (|s| > 0 && ContainsIndexedContent(s[1..]))
  }

  /**
   * `should_keep_attribute`: an attribute is dropped exactly when it is one
   * of the two generic input/output keys or contains a word of the
   * pattern's language anywhere.
   */
  predicate ShouldKeepAttribute(key: string)
    ensures ShouldKeepAttribute(key) <==>
      !(key == INPUT_ATTRIBUTE_NAME || key == OUTPUT_ATTRIBUTE_NAME || HasPatternSubstring(key))
  {
    ContainsIndexedContentExactly(key);
    if key == INPUT_ATTRIBUTE_NAME || key == OUTPUT_ATTRIBUTE_NAME then false
    else !ContainsIndexedContent(key)
  }

  // ---------------------------------------------------------------------
  // The pattern's language, stated without any scanning.

  /** Digits (at least one) followed by the field `f`, and nothing else. */
  ghost predicate IsDigitsThen(t: string, f: string)
  {
    EndsWith(t, f) && |t| > |f| && AllDigits(t[..|t| - |f|])
  }

  /** `stem`, then digits, then `.content` or `.role`, and nothing else. */
  ghost predicate IsStemWord(w: string, stem: string)
  {
    StartsWith(w, stem) && (IsDigitsThen(w[|stem|..], ".content") || IsDigitsThen(w[|stem|..], ".role"))
  }

  /** `w` is exactly one word of the pattern's language. */
  ghost predicate IsPatternWord(w: string)
  {
    IsStemWord(w, PROMPT_STEM) || IsStemWord(w, COMPLETION_STEM)
  }

  /** Some substring of `s` is a word of the pattern's language. */
  ghost predicate HasPatternSubstring(s: string)
  {
    exists i, j :: 0 <= i <= j <= |s| && IsPatternWord(s[i..j])
  }

  /** A digit run that ends before a non-digit is the whole leading run. */
  lemma {:induction false} DigitRunIs(t: string, n: nat)
    requires n < |t| && AllDigits(t[..n]) && !IsDigit(t[n])
    ensures DigitRun(t) == n
  {
    if n > 0 {
      assert IsDigit(t[..n][0]);
      assert t[1..][..n - 1] == t[..n][1..];
      DigitRunIs(t[1..], n - 1);
    }
  }

  /** A match of `stem` and field `f` at the start yields a word that is a prefix of `s`. */
  lemma MatchGivesWord(s: string, stem: string, f: string) returns (j: nat)
    requires f == ".content" || f == ".role"
    requires StartsWith(s, stem)
    requires var t := s[|stem|..]; DigitRun(t) > 0 && StartsWith(t[DigitRun(t)..], f)
    ensures j <= |s| && IsStemWord(s[..j], stem)
    ensures IsDigitsThen(s[..j][|stem|..], f)
  {
    var t := s[|stem|..];
    var d := DigitRun(t);
    j := |stem| + d + |f|;
    var w := s[..j];
    assert w[..|stem|] == stem;
    var u := w[|stem|..];
    assert u == t[..d + |f|];
    assert u[|u| - |f|..] == t[d..][..|f|];
    assert u[..|u| - |f|] == t[..d];
  }

  /** A word of `stem` and field `f` that is a prefix of `s` makes the pattern match at the start. */
  lemma WordGivesMatch(s: string, j: nat, stem: string, f: string)
    requires j <= |s| && StartsWith(s[..j], stem) && IsDigitsThen(s[..j][|stem|..], f)
    requires |f| > 0 && f[0] == '.'
    ensures StartsWith(s, stem)
    ensures var t := s[|stem|..]; DigitRun(t) > 0 && StartsWith(t[DigitRun(t)..], f)
  {
    var w := s[..j];
    var u := w[|stem|..];
    var n := |u| - |f|;
    var t := s[|stem|..];
    assert s[..|stem|] == w[..|stem|];
    assert u == t[..|u|];
    assert t[..n] == u[..n];
    assert t[n] == u[n] == u[|u| - |f|..][0] == f[0];
    DigitRunIs(t, n);
    assert t[n..][..|f|] == u[n..];
  }

  /** A match at the start of `s` yields a word that is a prefix of `s`. */
  lemma MatchAtStartGivesWord(s: string) returns (j: nat)
    requires MatchesAtStart(s)
    ensures j <= |s| && IsPatternWord(s[0..j])
  {
    var stem := if StartsWith(s, PROMPT_STEM) && IndexedFieldPrefix(s[|PROMPT_STEM|..])
                then PROMPT_STEM else COMPLETION_STEM;
    var t := s[|stem|..];
    var f := if StartsWith(t[DigitRun(t)..], ".content") then ".content" else ".role";
    j := MatchGivesWord(s, stem, f);
    assert s[0..j] == s[..j];
  }

  /** A word found in `s` after its first character is a word of `s`. */
  lemma WordInTail(s: string, i: nat, j: nat)
    requires |s| > 0 && i <= j <= |s| - 1 && IsPatternWord(s[1..][i..j])
    ensures HasPatternSubstring(s)
  {
    assert s[1..][i..j] == s[i + 1..j + 1];
  }

  lemma {:induction false} ScanFindsWord(s: string)
    requires ContainsIndexedContent(s)
    ensures HasPatternSubstring(s)
  {
    if MatchesAtStart(s) {
      var j := MatchAtStartGivesWord(s);
    } else {
      ScanFindsWord(s[1..]);
      var i, j :| 0 <= i <= j <= |s[1..]| && IsPatternWord(s[1..][i..j]);
      WordInTail(s, i, j);
    }
  }

  lemma {:induction false} WordIsFoundByScan(s: string, i: nat, j: nat)
    requires i <= j <= |s| && IsPatternWord(s[i..j])
    ensures ContainsIndexedContent(s)
    decreases i
  {
    if i == 0 {
      var w := s[..j];
      assert w == s[i..j];
      var stem := if IsStemWord(w, PROMPT_STEM) then PROMPT_STEM else COMPLETION_STEM;
      var f := if IsDigitsThen(w[|stem|..], ".content") then ".content" else ".role";
      WordGivesMatch(s, j, stem, f);
    } else {
      assert s[1..][i - 1..j - 1] == s[i..j];
      WordIsFoundByScan(s[1..], i - 1, j - 1);
    }
  }

  /** The scan answers exactly the question "does a substring match?". */
  lemma ContainsIndexedContentExactly(s: string)
    ensures ContainsIndexedContent(s) <==> HasPatternSubstring(s)
  {
    if ContainsIndexedContent(s) {
      ScanFindsWord(s);
    }
    if HasPatternSubstring(s) {
      var i, j :| 0 <= i <= j <= |s| && IsPatternWord(s[i..j]);
      WordIsFoundByScan(s, i, j);
    }
  }

  // ---------------------------------------------------------------------
  // Which keys of this core are kept and which are dropped.

  /** A stretch without a lower-case `g` cannot start a match. */
  lemma {:induction false} SkipWithoutG(x: string, y: string)
    requires 'g' !in x
    ensures ContainsIndexedContent(x + y) == ContainsIndexedContent(y)
  {
    if x != [] {
      assert (x + y)[0] == x[0] != 'g';
      assert !StartsWith(x + y, PROMPT_STEM) && !StartsWith(x + y, COMPLETION_STEM);
      assert (x + y)[1..] == x[1..] + y;
      SkipWithoutG(x[1..], y);
    } else {
      assert x + y == y;
    }
  }

  lemma NoMatchWithoutG(s: string)
    requires 'g' !in s
    ensures !ContainsIndexedContent(s)
  {
    SkipWithoutG(s, []);
    assert s + [] == s;
  }

  /** A stem, a decimal number and `.content` or `.role` match at the start. */
  lemma StemDigitsFieldMatches(stem: string, d: string, f: string)
    requires stem == PROMPT_STEM || stem == COMPLETION_STEM
    requires AllDigits(d) && |d| > 0
    requires f == ".content" || f == ".role"
    ensures MatchesAtStart(stem + d + f)
  {
    var s := stem + d + f;
    assert s[..|stem|] == stem;
    var t := s[|stem|..];
    assert t == d + f;
    assert t[..|d|] == d;
    DigitRunIs(t, |d|);
    assert t[|d|..] == f;
  }

  /** Every indexed prompt content and role key is dropped. */
  lemma PromptKeysDropped(i: nat)
    ensures !ShouldKeepAttribute(PromptContentKey(i))
    ensures !ShouldKeepAttribute(PromptRoleKey(i))
  {
    StemDigitsFieldMatches(PROMPT_STEM, NatToString(i), ".content");
    StemDigitsFieldMatches(PROMPT_STEM, NatToString(i), ".role");
  }

  lemma NoDigitIsG(i: nat)
    ensures 'g' !in NatToString(i)
  {
  }


  /**
   * After the completion stem, a single digit followed by `.t` matches
   * neither field, and the prompt stem cannot match where the completion
   * stem does.
   */
  lemma NoMatchAfterCompletionStem(s: string, t: string)
    requires s == COMPLETION_STEM + t
    requires |t| >= 3 && t[0] == '0' && t[1] == '.' && t[2] == 't'
    ensures !MatchesAtStart(s)
  {
    assert s[7] == COMPLETION_STEM[7] != PROMPT_STEM[7];
    assert s[..|COMPLETION_STEM|] == COMPLETION_STEM;
    assert s[|COMPLETION_STEM|..] == t;
    assert t[..1] == "0";
    DigitRunIs(t, 1);
    assert t[1..][1] == 't';
  }

  /** The tool-call prefix, a number and a field `f` give no match at the start. */
  lemma ToolCallKeyNoMatchAtStart(d: string, f: string)
    ensures !MatchesAtStart(TOOL_CALLS_PREFIX + d + f)
  {
    var t := "0.tool_calls." + d + f;
    assert TOOL_CALLS_PREFIX + d + f == COMPLETION_STEM + t;
    NoMatchAfterCompletionStem(TOOL_CALLS_PREFIX + d + f, t);
  }

  /** Keys that start with a lower-case `g` are not the generic input/output keys. */
  lemma NotGenericIoKey(key: string)
    requires |key| > 0 && key[0] == 'g'
    ensures key != INPUT_ATTRIBUTE_NAME && key != OUTPUT_ATTRIBUTE_NAME
  {
    assert INPUT_ATTRIBUTE_NAME[0] == OUTPUT_ATTRIBUTE_NAME[0] == 'l';
  }

  /** A tool-call key after its first character. */
  lemma ToolCallKeyTail(d: string, f: string, rest: string) returns (x: string)
    ensures 'g' !in d && 'g' !in f ==> 'g' !in x
    ensures (TOOL_CALLS_PREFIX + d + (f + rest))[0] == 'g'
    ensures (TOOL_CALLS_PREFIX + d + (f + rest))[1..] == x + rest
  {
    x := GEN_AI_DOT[1..] + "completion." + "0.tool_calls." + d + f;
    assert TOOL_CALLS_PREFIX + d + (f + rest) == [GEN_AI_DOT[0]] + (x + rest);
  }

  /**
   * A key that starts with a lower-case `g` where no match starts, and then
   * has no lower-case `g` before a stretch without a match, is kept.
   */
  lemma KeptAfterHead(key: string, x: string, rest: string)
    requires |key| > 0 && key[0] == 'g' && !MatchesAtStart(key)
    requires key[1..] == x + rest && 'g' !in x && !ContainsIndexedContent(rest)
    ensures ShouldKeepAttribute(key)
  {
    NotGenericIoKey(key);
    SkipWithoutG(x, rest);
  }

  /** A tool-call key whose field has a lower-case `g` only where no match starts is kept. */
  lemma ToolCallKeyKeptSplit(d: string, f: string, rest: string)
    requires AllDigits(d) && |d| > 0 && 'g' !in d
    requires |f| > 0 && f[0] == '.' && 'g' !in f
    requires !ContainsIndexedContent(rest)
    ensures ShouldKeepAttribute(TOOL_CALLS_PREFIX + d + (f + rest))
  {
    var key := TOOL_CALLS_PREFIX + d + (f + rest);
    ToolCallKeyNoMatchAtStart(d, f + rest);
    var x := ToolCallKeyTail(d, f, rest);
    KeptAfterHead(key, x, rest);
  }

  lemma ArgumentsTailNoMatch()
    ensures !ContainsIndexedContent("guments")
  {
    assert !StartsWith("guments", PROMPT_STEM) && !StartsWith("guments", COMPLETION_STEM);
    assert "guments"[1..] == "uments";
    NoMatchWithoutG("uments");
  }

  /** The arguments key of a tool call is kept. */
  lemma ToolCallArgumentsKeyKept(d: string)
    requires AllDigits(d) && |d| > 0 && 'g' !in d
    ensures ShouldKeepAttribute(TOOL_CALLS_PREFIX + d + ".arguments")
  {
    ArgumentsTailNoMatch();
    ToolCallKeyKeptSplit(d, ".ar", "guments");
    assert ".ar" + "guments" == ".arguments";
  }

  /** Tool-call keys are kept: they are not content or role keys. */
  lemma ToolCallKeysKept(i: nat)
    ensures ShouldKeepAttribute(ToolCallNameKey(i))
    ensures ShouldKeepAttribute(ToolCallIdKey(i))
    ensures ShouldKeepAttribute(ToolCallArgumentsKey(i))
  {
    NoDigitIsG(i);
    NoMatchWithoutG("");
    ToolCallKeyKeptSplit(NatToString(i), ".name", "");
    ToolCallKeyKeptSplit(NatToString(i), ".id", "");
    assert ".name" + "" == ".name" && ".id" + "" == ".id";
    ToolCallArgumentsKeyKept(NatToString(i));
  }

  /** Neither stem of the pattern starts at any position of `s`. */
  ghost predicate NoStemIn(s: string)
  {
    forall i :: 0 <= i <= |s| ==> !StartsWith(s[i..], PROMPT_STEM) && !StartsWith(s[i..], COMPLETION_STEM)
  }

  /** Without either stem there is no match. */
  lemma {:induction false} NoMatchWithoutStem(s: string)
    requires NoStemIn(s)
    ensures !ContainsIndexedContent(s)
    decreases |s|
  {
    assert s[0..] == s;
    if |s| > 0 {
      forall i | 0 <= i <= |s[1..]|
        ensures !StartsWith(s[1..][i..], PROMPT_STEM) && !StartsWith(s[1..][i..], COMPLETION_STEM)
      {
        assert s[1..][i..] == s[i + 1..];
      }
      NoMatchWithoutStem(s[1..]);
    }
  }

  /**
   * A key other than the two generic ones that contains neither
   * `gen_ai.prompt.` nor `gen_ai.completion.` is kept.
   */
  lemma KeptWithoutStem(key: string)
    requires NoStemIn(key)
    requires key != INPUT_ATTRIBUTE_NAME && key != OUTPUT_ATTRIBUTE_NAME
    ensures ShouldKeepAttribute(key)
  {
    NoMatchWithoutStem(key);
  }

  /** Both stems start with a lower-case `g`, so a string without one has no stem. */
  lemma NoStemWithoutG(s: string)
    requires 'g' !in s
    ensures NoStemIn(s)
  {
    forall i | 0 <= i <= |s|
      ensures !StartsWith(s[i..], PROMPT_STEM) && !StartsWith(s[i..], COMPLETION_STEM)
    {
      if i < |s| {
        assert s[i..][0] == s[i];
      }
    }
  }

  /**
   * The keys that decide the span type survive the filter: they contain
   * neither stem.
   */
  lemma SpanTypeKeysKept()
    ensures ShouldKeepAttribute(SPAN_TYPE) && ShouldKeepAttribute(GEN_AI_SYSTEM)
  {
    NoStemWithoutG(SPAN_TYPE);
    NoStemWithoutG(GEN_AI_SYSTEM);
    KeptWithoutStem(SPAN_TYPE);
    KeptWithoutStem(GEN_AI_SYSTEM);
  }
}
