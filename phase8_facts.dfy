/** `agents/phase8/deep_fact_reference_cross_validation_agent.py`: naive
    facts are matched against reference texts by a normalised 20-character
    key, and the covered share decides validation. */
module FactCrossValidation {
  import opened Wrappers
  import opened PyText
  import opened SeqUtil
  import opened SentenceCues

  /** A sentence is a fact when it holds a digit or a capitalised word. */
  predicate IsFact(s: string) {
    HasDigit(s) || HasCapitalWord(s)
  }

  /** `_extract_facts` */
  function ExtractFacts(text: string): seq<string> {
    Filter(Sentences(text), IsFact)
  }

  /** The facts are exactly the fact-like sentences, in text order. */
  lemma ExtractFactsSpec(text: string)
    ensures IsSubsequence(ExtractFacts(text), Sentences(text))
    ensures forall f :: f in ExtractFacts(text) <==> f in Sentences(text) && IsFact(f)
  {
    FilterIsSubsequence(Sentences(text), IsFact);
  }

  /** `" ".join(re.findall(r"\w+", s.lower()))` */
  function Normalise(s: string): string {
    Join(" ", LowerWordTokens(s))
  }

  /** `key[:20]` of `key = Normalise(f)[:40]`: the cut to 40 is subsumed
      by the cut to 20. */
  function MatchKey(f: string): (r: string)
    ensures r == Take(Normalise(f), 20)
  {
    Take(Take(Normalise(f), 40), 20)
  }

  /** `any(key[:20] in Normalise(r) for r in refs)` */
  predicate Covered(f: string, refs: seq<string>) {
    exists i :: 0 <= i < |refs| && Contains(Normalise(refs[i]), MatchKey(f))
  }

  /** `_match_refs`: one `(fact, ok)` pair per fact, in fact order. */
  method MatchRefs(facts: seq<string>, refs: seq<string>) returns (matched: seq<(string, bool)>)
    ensures |matched| == |facts|
    ensures forall i :: 0 <= i < |facts| ==> matched[i] == (facts[i], Covered(facts[i], refs))
  {
    matched := [];
    for n := 0 to |facts|
      invariant |matched| == n
      invariant forall i :: 0 <= i < n ==> matched[i] == (facts[i], Covered(facts[i], refs))
    {
      var f := facts[n];
      var key := MatchKey(f);
      var ok := false;
      for r := 0 to |refs|
        invariant ok <==> exists i :: 0 <= i < r && Contains(Normalise(refs[i]), key)
      {
        if Contains(Normalise(refs[r]), key) {
          ok := true;
        }
      }
      matched := matched + [(f, ok)];
    }
  }

  /** A fact whose key is empty would be found in every reference; a fact
      always has a word character, so its key never is. */
  lemma FactKeyNonEmpty(f: string)
    requires IsFact(f)
    ensures MatchKey(f) != []
  {
    var lf := Lower(f);
    var i :| 0 <= i < |f| && (IsDigit(f[i]) || IsUpper(f[i]));
    assert IsWordChar(lf[i]);
    HasWordCharHasToken(lf, i);
    var toks := LowerWordTokens(f);
    assert toks[0] != [];
    JoinNonEmpty(toks);
  }

  lemma {:induction false} HasWordCharHasToken(s: string, i: nat)
    requires i < |s| && IsWordChar(s[i])
    ensures WordTokens(s) != []
    decreases i
  {
    if IsWordChar(s[0]) {
      assert WordTokens(s) == [s[..RunLength(s, IsWordChar)]] + Runs(s[RunLength(s, IsWordChar)..], IsWordChar);
    } else {
      assert i > 0;
      HasWordCharHasToken(s[1..], i - 1);
    }
  }

  lemma JoinNonEmpty(xs: seq<string>)
    requires xs != [] && xs[0] != []
    ensures Join(" ", xs) != []
  {
    if |xs| > 1 {
      assert |Join(" ", xs)| >= |xs[0]|;
    }
  }

  /** `[f for f, ok in matches if ok == want]` */
  function FactsWith(matched: seq<(string, bool)>, want: bool): (r: seq<string>)
    ensures |r| <= |matched|
  {
    if matched == [] then []
    else if matched[0].1 == want then [matched[0].0] + FactsWith(matched[1..], want)
    else FactsWith(matched[1..], want)
  }

  /** Reading the pairs back gives the covered (or the uncovered) facts in
      order. */
  lemma {:induction false} FactsWithFilter(matched: seq<(string, bool)>, facts: seq<string>, refs: seq<string>)
    requires |matched| == |facts|
    requires forall i :: 0 <= i < |facts| ==> matched[i] == (facts[i], Covered(facts[i], refs))
    ensures FactsWith(matched, true) == Filter(facts, f => Covered(f, refs))
    ensures FactsWith(matched, false) == Filter(facts, Not(f => Covered(f, refs)))
  {
    if facts != [] {
      FactsWithFilter(matched[1..], facts[1..], refs);
    }
  }

  datatype Report = Report(factsValidated: bool, coverage: real, uncoveredFacts: seq<string>)

  function Coverage(covered: nat, total: nat): real {
    if total == 0 then 0.0 else covered as real / total as real
  }

  /** `DeepFactReferenceCrossValidationAgent.execute` before rounding;
      missing `content` is "" and missing `reference_texts` is []. */
  method Validate(content: Option<string>, references: Option<seq<string>>) returns (r: Report)
    ensures var facts := ExtractFacts(content.GetOr(""));
      var refs := references.GetOr([]);
      var covered := Filter(facts, f => Covered(f, refs));
      var uncovered := Filter(facts, Not(f => Covered(f, refs)));
      && |covered| + |uncovered| == |facts|
      && r.coverage == Coverage(|covered|, |facts|)
      && 0.0 <= r.coverage <= 1.0
      && (r.factsValidated <==> facts != [] && 2 * |covered| >= |facts|)
      && r.uncoveredFacts == Take(uncovered, 10)
  {
    var facts := ExtractFacts(content.GetOr(""));
    var refs := references.GetOr([]);
    var matched := MatchRefs(facts, refs);
    FactsWithFilter(matched, facts, refs);
    var covered := FactsWith(matched, true);
    var uncovered := FactsWith(matched, false);
    FilterPartition(facts, f => Covered(f, refs));
    var coverage := Coverage(|covered|, |facts|);
    CoverageFacts(|covered|, |facts|);
    r := Report(coverage >= 0.5, coverage, Take(uncovered, 10));
  }

  lemma CoverageFacts(covered: nat, total: nat)
    requires covered <= total
    ensures 0.0 <= Coverage(covered, total) <= 1.0
    ensures Coverage(covered, total) >= 0.5 <==> total > 0 && 2 * covered >= total
  {
    if total > 0 {
      var t, cv := total as real, covered as real;
      var c := Coverage(covered, total);
      assert c * t == cv;
      SignOfProduct(c, t);
      SignOfProduct(1.0 - c, t);
      assert (1.0 - c) * t == t - cv;
      SignOfProduct(c - 0.5, t);
      assert (c - 0.5) * t == cv - 0.5 * t;
    } else {
      assert Coverage(covered, total) == 0.0;
    }
  }

  /** Multiplying by a positive factor keeps the sign. */
  lemma SignOfProduct(x: real, t: real)
    requires t > 0.0
    ensures x >= 0.0 <==> x * t >= 0.0
  {
    if x < 0.0 {
      assert (-x) * t > 0.0;
    }
  }

  /** Without references nothing is covered, so a text with facts is never
      validated. */
  lemma {:induction false} NoReferencesNoCoverage(facts: seq<string>)
    ensures Filter(facts, f => Covered(f, [])) == []
    ensures Filter(facts, Not(f => Covered(f, []))) == facts
  {
    if facts != [] {
      NoReferencesNoCoverage(facts[1..]);
    }
  }
}
