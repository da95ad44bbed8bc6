/** `agents/phase8/paraphrase_correction_agent.py`: three regex
    substitutions applied in a row. */
module ParaphraseCorrection {
  import opened Wrappers
  import opened PyText
  import opened SeqUtil
  import opened SentenceCues

  /** `[,.;:!?]` */
  predicate IsPunct(c: char) {
    c == ',' || c == '.' || c == ';' || c == ':' || c == '!' || c == '?'
  }

  /** Neither whitespace nor one of the punctuation marks step 2 removes. */
  predicate IsWordish(c: char) { !IsSpace(c) && !IsPunct(c) }

  /** `re.sub(r"\s+", " ", s)` */
  function CollapseSpace(s: string): string
    decreases |s|
  {
    if s == [] then []
    else if IsSpace(s[0]) then [' '] + CollapseSpace(s[RunLength(s, IsSpace)..])
    else [s[0]] + CollapseSpace(s[1..])
  }

  /** Every whitespace character is a plain space and none follows another. */
  predicate SingleSpaced(t: string) {
    forall i :: 0 <= i < |t| && IsSpace(t[i]) ==> t[i] == ' ' && (i + 1 < |t| ==> !IsSpace(t[i + 1]))
  }

  lemma {:induction false} CollapseSpaceSingle(s: string)
    ensures SingleSpaced(CollapseSpace(s))
    decreases |s|
  {
    if s != [] {
      var r := CollapseSpace(s);
      if IsSpace(s[0]) {
        var n := RunLength(s, IsSpace);
        var rest := CollapseSpace(s[n..]);
        CollapseSpaceSingle(s[n..]);
        assert r == [' '] + rest;
        assert rest != [] ==> rest[0] == s[n];
        forall i | 0 <= i < |r| && IsSpace(r[i])
          ensures r[i] == ' ' && (i + 1 < |r| ==> !IsSpace(r[i + 1]))
        {
          if i > 0 {
            assert r[i] == rest[i - 1];
          }
        }
      } else {
        var rest := CollapseSpace(s[1..]);
        CollapseSpaceSingle(s[1..]);
        assert r == [s[0]] + rest;
        forall i | 0 <= i < |r| && IsSpace(r[i])
          ensures r[i] == ' ' && (i + 1 < |r| ==> !IsSpace(r[i + 1]))
        {
          assert i > 0 && r[i] == rest[i - 1];
        }
      }
    }
  }

  /** Collapsing only ever touches whitespace. */
  lemma {:induction false} CollapseSpaceKeeps(s: string)
    ensures Filter(CollapseSpace(s), NotSpace) == Filter(s, NotSpace)
    decreases |s|
  {
    if s != [] {
      var r := CollapseSpace(s);
      if IsSpace(s[0]) {
        var n := RunLength(s, IsSpace);
        CollapseSpaceKeeps(s[n..]);
        assert r == [' '] + CollapseSpace(s[n..]);
        assert r[1..] == CollapseSpace(s[n..]);
        assert s[n..|s|] == s[n..];
        FilterSlice(s, n, |s|, NotSpace);
      } else {
        CollapseSpaceKeeps(s[1..]);
        assert r == [s[0]] + CollapseSpace(s[1..]);
        assert r[1..] == CollapseSpace(s[1..]);
      }
    }
  }

  /** Step 1: `re.sub(r"\s+", " ", text).strip()` */
  function Step1(text: string): string {
    Strip(CollapseSpace(text))
  }

  /** After step 1 every whitespace run is one plain space between two
      non-space characters. */
  lemma Step1Shape(text: string)
    ensures var t := Step1(text);
      SingleSpaced(t) && (t != [] ==> !IsSpace(t[0]) && !IsSpace(t[|t| - 1]))
  {
    var c := CollapseSpace(text);
    CollapseSpaceSingle(text);
    var a := StripBounds(c);
    SingleSpacedSlice(c, a, a + |Strip(c)|);
  }

  /** Step 1 adds or loses no character other than whitespace. */
  lemma Step1Keeps(text: string)
    ensures Filter(Step1(text), NotSpace) == Filter(text, NotSpace)
  {
    CollapseSpaceKeeps(text);
    var c := CollapseSpace(text);
    LStripKeeps(c);
    RStripKeeps(LStrip(c));
  }

  lemma {:induction false} LStripKeeps(s: string)
    ensures Filter(LStrip(s), NotSpace) == Filter(s, NotSpace)
    decreases |s|
  {
    if s != [] && IsSpace(s[0]) {
      LStripKeeps(s[1..]);
    }
  }

  lemma {:induction false} RStripKeeps(s: string)
    ensures Filter(RStrip(s), NotSpace) == Filter(s, NotSpace)
    decreases |s|
  {
    if s != [] && IsSpace(s[|s| - 1]) {
      var init := s[..|s| - 1];
      RStripKeeps(init);
      assert s == init + [s[|s| - 1]];
      FilterAppend(init, s[|s| - 1], NotSpace);
    }
  }

  /** `strip()` cuts whitespace off both ends: the result is a slice whose
      first and last characters are not whitespace. */
  lemma StripBounds(c: string) returns (a: nat)
    ensures a + |Strip(c)| <= |c| && Strip(c) == c[a..a + |Strip(c)|]
    ensures forall i :: 0 <= i < a ==> IsSpace(c[i])
    ensures forall i :: a + |Strip(c)| <= i < |c| ==> IsSpace(c[i])
    ensures Strip(c) != [] ==> !IsSpace(Strip(c)[0]) && !IsSpace(Strip(c)[|Strip(c)| - 1])
  {
    var l := LStrip(c);
    LStripSuffix(c);
    a := |c| - |l|;
    var t := RStrip(l);
    RStripPrefix(l);
    assert t == l[..|t|];
    assert t != [] ==> t[0] == l[0];
    forall i | a + |t| <= i < |c|
      ensures IsSpace(c[i])
    {
      assert c[i] == l[i - a];
    }
  }

  lemma SingleSpacedSlice(c: string, a: nat, b: nat)
    requires a <= b <= |c| && SingleSpaced(c)
    ensures SingleSpaced(c[a..b])
  {
    var t := c[a..b];
    forall i | 0 <= i < |t| && IsSpace(t[i])
      ensures t[i] == ' ' && (i + 1 < |t| ==> !IsSpace(t[i + 1]))
    {
      assert t[i] == c[a + i];
      if i + 1 < |t| {
        assert t[i + 1] == c[a + i + 1];
      }
    }
  }

  /** A whitespace run at the start of `s` is directly followed by one of
      the punctuation marks. */
  predicate SpacedPunctAt(s: string) {
    s != [] && IsSpace(s[0]) && RunLength(s, IsSpace) < |s| && IsPunct(s[RunLength(s, IsSpace)])
  }

  /** Step 2: `re.sub(r"\s+([,.;:!?])", r"", t)`; the replacement is empty,
      so the punctuation goes with the whitespace. */
  function DropSpacedPunct(s: string): string
    decreases |s|
  {
    if s == [] then []
    else if SpacedPunctAt(s) then DropSpacedPunct(s[RunLength(s, IsSpace) + 1..])
    else [s[0]] + DropSpacedPunct(s[1..])
  }

  predicate NoSpaceBeforePunct(t: string) {
    forall i :: 0 <= i && i + 1 < |t| ==> !(IsSpace(t[i]) && IsPunct(t[i + 1]))
  }

  /** After step 2 no whitespace stands before a punctuation mark. */
  lemma {:induction false} DropSpacedPunctShape(s: string)
    ensures NoSpaceBeforePunct(DropSpacedPunct(s))
    decreases |s|
  {
    if s != [] {
      var r := DropSpacedPunct(s);
      if SpacedPunctAt(s) {
        DropSpacedPunctShape(s[RunLength(s, IsSpace) + 1..]);
      } else {
        var rest := DropSpacedPunct(s[1..]);
        DropSpacedPunctShape(s[1..]);
        assert r == [s[0]] + rest;
        if IsSpace(s[0]) && rest != [] {
          KeptAfterSpace(s);
        }
        forall i | 0 <= i && i + 1 < |r|
          ensures !(IsSpace(r[i]) && IsPunct(r[i + 1]))
        {
          if i > 0 {
            assert r[i] == rest[i - 1] && r[i + 1] == rest[i];
          }
        }
      }
    }
  }

  /** Step 2 deletes only whitespace and punctuation marks: the other
      characters are those of the input, in order. */
  lemma {:induction false} DropSpacedPunctKeeps(s: string)
    ensures Filter(DropSpacedPunct(s), IsWordish) == Filter(s, IsWordish)
    decreases |s|
  {
    if s != [] {
      var r := DropSpacedPunct(s);
      if SpacedPunctAt(s) {
        var n := RunLength(s, IsSpace);
        DropSpacedPunctKeeps(s[n + 1..]);
        assert s[n + 1..|s|] == s[n + 1..];
        FilterSlice(s, n + 1, |s|, IsWordish);
      } else {
        DropSpacedPunctKeeps(s[1..]);
        assert r == [s[0]] + DropSpacedPunct(s[1..]);
        assert r[1..] == DropSpacedPunct(s[1..]);
      }
    }
  }

  /** A kept whitespace character is followed by whitespace or by a
      character that is not a punctuation mark. */
  lemma KeptAfterSpace(s: string)
    requires s != [] && IsSpace(s[0]) && !SpacedPunctAt(s)
    requires DropSpacedPunct(s[1..]) != []
    ensures !IsPunct(DropSpacedPunct(s[1..])[0])
  {
    var t := s[1..];
    var n := RunLength(s, IsSpace);
    assert RunLength(s, IsSpace) == 1 + RunLength(t, IsSpace);
    if t != [] && IsSpace(t[0]) {
      assert !SpacedPunctAt(t);
      assert DropSpacedPunct(t) == [t[0]] + DropSpacedPunct(t[1..]);
    } else {
      assert t != [];
      assert DropSpacedPunct(t) == [t[0]] + DropSpacedPunct(t[1..]);
    }
  }

  /** Step 3: `re.sub(r"([.!?]){3,}", r"", t)`: every run of three or more
      terminal marks disappears, mixed runs included. */
  function DropEllipses(s: string): string
    decreases |s|
  {
    if s == [] then []
    else if RunLength(s, IsTerminal) >= 3 then DropEllipses(s[RunLength(s, IsTerminal)..])
    else [s[0]] + DropEllipses(s[1..])
  }

  predicate NoTripleTerminal(t: string) {
    forall i :: 0 <= i && i + 2 < |t| ==> !(IsTerminal(t[i]) && IsTerminal(t[i + 1]) && IsTerminal(t[i + 2]))
  }

  /** After step 3 no three terminal marks stand in a row: a run shorter
      than three is kept whole, a longer one goes. */
  lemma {:induction false} DropEllipsesShape(s: string)
    ensures var n := RunLength(s, IsTerminal);
      RunLength(DropEllipses(s), IsTerminal) == if n < 3 then n else 0
    ensures NoTripleTerminal(DropEllipses(s))
    decreases |s|
  {
    if s != [] {
      var n := RunLength(s, IsTerminal);
      var r := DropEllipses(s);
      if n >= 3 {
        DropEllipsesShape(s[n..]);
      } else {
        var rest := DropEllipses(s[1..]);
        DropEllipsesShape(s[1..]);
        assert r == [s[0]] + rest;
        assert r[1..] == rest;
        if IsTerminal(s[0]) {
          assert RunLength(s, IsTerminal) == 1 + RunLength(s[1..], IsTerminal);
          assert RunLength(r, IsTerminal) == 1 + RunLength(rest, IsTerminal);
        }
        forall i | 0 <= i && i + 2 < |r|
          ensures !(IsTerminal(r[i]) && IsTerminal(r[i + 1]) && IsTerminal(r[i + 2]))
        {
          if i > 0 {
            assert r[i] == rest[i - 1] && r[i + 1] == rest[i] && r[i + 2] == rest[i + 1];
          }
        }
      }
    }
  }

  /** Step 3 deletes only terminal marks. */
  lemma {:induction false} DropEllipsesKeeps(s: string)
    ensures Filter(DropEllipses(s), Not(IsTerminal)) == Filter(s, Not(IsTerminal))
    decreases |s|
  {
    if s != [] {
      var n := RunLength(s, IsTerminal);
      var r := DropEllipses(s);
      if n >= 3 {
        DropEllipsesKeeps(s[n..]);
        assert forall i :: 0 <= i < n ==> !Not(IsTerminal)(s[i]);
        assert s[n..|s|] == s[n..];
        FilterSlice(s, n, |s|, Not(IsTerminal));
      } else {
        DropEllipsesKeeps(s[1..]);
        assert r == [s[0]] + DropEllipses(s[1..]);
        assert r[1..] == DropEllipses(s[1..]);
      }
    }
  }

  /** `_fix_common_issues` */
  function FixCommonIssues(text: string): string {
    DropEllipses(DropSpacedPunct(Step1(text)))
  }

  /** Whatever the input, the result has no run of three terminal marks, and
      every character that is neither whitespace nor `, . ; : ! ?` survives
      in order. */
  lemma FixCommonIssuesSpec(text: string)
    ensures NoTripleTerminal(FixCommonIssues(text))
    ensures Filter(FixCommonIssues(text), IsWordish) == Filter(text, IsWordish)
  {
    var a := Step1(text);
    var b := DropSpacedPunct(a);
    Step1Shape(text);
    Step1Keeps(text);
    DropSpacedPunctKeeps(a);
    DropEllipsesShape(b);
    DropEllipsesKeeps(b);
    forall x | IsWordish(x) ensures Not(IsTerminal)(x) && NotSpace(x) {
      assert !IsTerminal(x);
      assert Not(IsTerminal)(x) == !IsTerminal(x);
    }
    FilterWeaker(a, NotSpace, IsWordish);
    FilterWeaker(text, NotSpace, IsWordish);
    FilterWeaker(FixCommonIssues(text), Not(IsTerminal), IsWordish);
    FilterWeaker(b, Not(IsTerminal), IsWordish);
  }

  lemma {:induction false} CollapseNoSpace(s: string)
    requires forall i :: 0 <= i < |s| ==> !IsSpace(s[i])
    ensures CollapseSpace(s) == s && DropSpacedPunct(s) == s
  {
    if s != [] {
      CollapseNoSpace(s[1..]);
    }
  }

  lemma {:induction false} DropEllipsesNone(s: string)
    requires NoTripleTerminal(s)
    ensures DropEllipses(s) == s
  {
    if s != [] {
      if |s| >= 3 {
        assert !(IsTerminal(s[0]) && IsTerminal(s[1]) && IsTerminal(s[2]));
      }
      assert RunLength(s, IsTerminal) < 3;
      assert NoTripleTerminal(s[1..]) by {
        forall i | 0 <= i && i + 2 < |s[1..]|
          ensures !(IsTerminal(s[1..][i]) && IsTerminal(s[1..][i + 1]) && IsTerminal(s[1..][i + 2]))
        {
          assert s[1..][i] == s[i + 1];
        }
      }
      DropEllipsesNone(s[1..]);
    }
  }

  /** Text without whitespace and without three terminal marks in a row is
      returned unchanged. */
  lemma FixCommonIssuesUnchanged(text: string)
    requires forall i :: 0 <= i < |text| ==> !IsSpace(text[i])
    requires NoTripleTerminal(text)
    ensures FixCommonIssues(text) == text
  {
    CollapseNoSpace(text);
    assert LStrip(text) == text;
    assert RStrip(text) == text;
    DropEllipsesNone(text);
  }

  datatype Report = Report(correctedContent: string, changed: bool)

  /** `ParaphraseCorrectionAgent.execute`; missing `content` is "". */
  function Correct(content: Option<string>): (r: Report)
    ensures NoTripleTerminal(r.correctedContent)
    ensures r.changed <==> r.correctedContent != content.GetOr("")
  {
    var text := content.GetOr("");
    var fixed := FixCommonIssues(text);
    FixCommonIssuesSpec(text);
    Report(fixed, fixed != text)
  }
}

/** `agents/phase8/plagiarism_paraphrase_agent.py`: five case-insensitive
    substitutions, applied one after the other. */
module PlagiarismParaphrase {
  import opened Wrappers
  import opened PyText

  /** The rule table, in dict insertion order. */
  const Rules: seq<(string, string)> := [
    ("utilize", "use"),
    ("commence", "begin"),
    ("terminate", "end"),
    ("subsequently", "then"),
    ("prior to", "before")
  ]

  /** Every pattern is non-empty and longer than its replacement. */
  predicate Shrinking(rules: seq<(string, string)>) {
    forall i :: 0 <= i < |rules| ==> |rules[i].1| < |rules[i].0|
  }

  /** The lower-case pattern matches at the start of `s`, ignoring case. */
  predicate MatchesAt(s: string, pat: string) {
    |pat| <= |s| && Lower(s[..|pat|]) == pat
  }

  /** `re.sub(pat, repl, s, flags=re.IGNORECASE)` for a literal pattern:
      leftmost, non-overlapping matches, scanning on after each one. */
  function SubAll(s: string, pat: string, repl: string): string
    requires pat != []
    decreases |s|
  {
    if s == [] then []
    else if MatchesAt(s, pat) then repl + SubAll(s[|pat|..], pat, repl)
    else [s[0]] + SubAll(s[1..], pat, repl)
  }

  lemma MatchesAtLower(s: string, pat: string)
    ensures MatchesAt(s, pat) <==> StartsWith(Lower(s), pat)
  {
    if |pat| <= |s| {
      assert Lower(s)[..|pat|] == Lower(s[..|pat|]);
    }
  }

  /** A shrinking substitution never lengthens the text, and keeps its
      length exactly when the pattern does not occur (ignoring case), in
      which case the text comes back unchanged. */
  lemma {:induction false} SubAllLength(s: string, pat: string, repl: string)
    requires pat != [] && |repl| < |pat|
    ensures |SubAll(s, pat, repl)| <= |s|
    ensures |SubAll(s, pat, repl)| == |s| <==> !Contains(Lower(s), pat)
    ensures !Contains(Lower(s), pat) ==> SubAll(s, pat, repl) == s
    decreases |s|
  {
    MatchesAtLower(s, pat);
    if s != [] {
      assert Lower(s)[1..] == Lower(s[1..]);
      if MatchesAt(s, pat) {
        SubAllLength(s[|pat|..], pat, repl);
      } else {
        SubAllLength(s[1..], pat, repl);
      }
    } else {
      assert !Contains(Lower(s), pat);
    }
  }

  /** The rules applied in order. */
  function ApplyRules(s: string, rules: seq<(string, string)>): string
    requires forall i :: 0 <= i < |rules| ==> rules[i].0 != []
    decreases |rules|
  {
    if rules == [] then s else ApplyRules(SubAll(s, rules[0].0, rules[0].1), rules[1..])
  }

  /** `_simple_paraphrase`: the loop over the rule table. */
  method SimpleParaphrase(text: string) returns (out: string)
    ensures out == ApplyRules(text, Rules)
  {
    out := text;
    for n := 0 to |Rules|
      invariant ApplyRules(out, Rules[n..]) == ApplyRules(text, Rules)
    {
      assert Rules[n..][1..] == Rules[n + 1..];
      out := SubAll(out, Rules[n].0, Rules[n].1);
    }
  }

  /** Shrinking rules never lengthen the text, and they change it exactly
      when they make it shorter: a changed text is a shorter text. */
  lemma {:induction false} ApplyRulesShrinks(s: string, rules: seq<(string, string)>)
    requires forall i :: 0 <= i < |rules| ==> rules[i].0 != []
    requires Shrinking(rules)
    ensures |ApplyRules(s, rules)| <= |s|
    ensures ApplyRules(s, rules) != s <==> |ApplyRules(s, rules)| < |s|
    decreases |rules|
  {
    if rules != [] {
      var s1 := SubAll(s, rules[0].0, rules[0].1);
      SubAllLength(s, rules[0].0, rules[0].1);
      ApplyRulesShrinks(s1, rules[1..]);
    }
  }

  /** Text in which no pattern occurs, ignoring case, is left alone. */
  lemma {:induction false} ApplyRulesAbsent(s: string, rules: seq<(string, string)>)
    requires forall i :: 0 <= i < |rules| ==> rules[i].0 != []
    requires Shrinking(rules)
    requires forall i :: 0 <= i < |rules| ==> !Contains(Lower(s), rules[i].0)
    ensures ApplyRules(s, rules) == s
    decreases |rules|
  {
    if rules != [] {
      SubAllLength(s, rules[0].0, rules[0].1);
      ApplyRulesAbsent(s, rules[1..]);
    }
  }

  /** Matching ignores case and word boundaries, and the replacement is
      always lower-case: "Utilized" becomes "used". */
  lemma UtilizedBecomesUsed()
    ensures ApplyRules("Utilized", Rules) == "used"
  {
    assert MatchesAt("Utilized", "utilize");
    assert SubAll("d", "utilize", "use") == "d";
    assert SubAll("Utilized", "utilize", "use") == "used";
    forall i | 0 <= i < |Rules[1..]| ensures !Contains(Lower("used"), Rules[1..][i].0) {
      if Contains(Lower("used"), Rules[1..][i].0) {
        ContainsBound(Lower("used"), Rules[1..][i].0);
      }
    }
    ApplyRulesAbsent("used", Rules[1..]);
  }

  datatype Report = Report(paraphrasedContent: string, changed: bool)

  /** `PlagiarismParaphraseAgent.execute`; missing `content` is "". */
  method Paraphrase(content: Option<string>) returns (r: Report)
    ensures r.paraphrasedContent == ApplyRules(content.GetOr(""), Rules)
    ensures |r.paraphrasedContent| <= |content.GetOr("")|
    ensures r.changed <==> |r.paraphrasedContent| < |content.GetOr("")|
  {
    var text := content.GetOr("");
    var out := SimpleParaphrase(text);
    ApplyRulesShrinks(text, Rules);
    r := Report(out, out != text);
  }
}
