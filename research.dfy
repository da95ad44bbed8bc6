/** `blog_creation_suite/agents/phase2/reference_validation_agent.py`: a
    reference is valid when it is longer than five characters. */
module ReferenceValidation {
  import opened Wrappers
  import opened SeqUtil

  /** `is_valid_reference` */
  predicate IsValidReference(reference: string) { |reference| > 5 }

  datatype Summary = Summary(totalReferences: nat, validReferences: nat, invalidReferences: nat, validationRate: real)
  datatype Report = Report(validReferences: seq<string>, invalidReferences: seq<string>, summary: Summary)

  /** The valid references are those passing the check; the invalid ones are
      the references `not in` the valid list. */
  function ValidateReferences(references: Option<seq<string>>): (r: Report)
    ensures var refs := references.GetOr([]);
      && r.validReferences == Filter(refs, IsValidReference)
      && r.invalidReferences == Filter(refs, Not(IsValidReference))
      && IsSubsequence(r.validReferences, refs) && IsSubsequence(r.invalidReferences, refs)
      && multiset(r.validReferences) + multiset(r.invalidReferences) == multiset(refs)
      && r.summary.totalReferences == r.summary.validReferences + r.summary.invalidReferences
      && 0.0 <= r.summary.validationRate <= 100.0
      && (refs == [] ==> r.summary.validationRate == 0.0)
    ensures var refs := references.GetOr([]);
      && r.summary.totalReferences == |refs|
      && r.summary.validReferences == |r.validReferences|
      && r.summary.invalidReferences == |r.invalidReferences|
      && r.summary.validationRate == Percentage(|r.validReferences|, |refs|)
  {
    var refs := references.GetOr([]);
    var valid := Filter(refs, IsValidReference);
    var invalid := Filter(refs, ref => ref !in valid);
    var rate := Percentage(|valid|, |refs|);
    InvalidIsComplement(refs);
    FilterPartition(refs, IsValidReference);
    FilterIsSubsequence(refs, IsValidReference);
    FilterIsSubsequence(refs, Not(IsValidReference));
    Report(valid, invalid, Summary(|refs|, |valid|, |invalid|, rate))
  }

  /** Testing membership in the valid list picks out exactly the references
      that fail the check, duplicates included. */
  lemma InvalidIsComplement(refs: seq<string>)
    ensures Filter(refs, ref => ref !in Filter(refs, IsValidReference)) == Filter(refs, Not(IsValidReference))
  {
    var valid := Filter(refs, IsValidReference);
    forall i | 0 <= i < |refs|
      ensures (ref => ref !in valid)(refs[i]) == Not(IsValidReference)(refs[i])
    {
      assert refs[i] in refs;
    }
    FilterCongruent(refs, ref => ref !in valid, Not(IsValidReference));
  }

  /** `len(a) / len(b) * 100 if b else 0`: the rate that, taken of the
      whole, gives back the part; for a part of the whole it lies in
      [0, 100]. */
  function Percentage(part: nat, whole: nat): (q: real)
    ensures whole == 0 ==> q == 0.0
    ensures whole > 0 ==> q * whole as real == 100.0 * part as real
    ensures part <= whole ==> 0.0 <= q <= 100.0
  {
    RateValue(part, whole);
    if part <= whole then
      RateBounds(part, whole);
      if whole > 0 then part as real / whole as real * 100.0 else 0.0
    else if whole > 0 then part as real / whole as real * 100.0 else 0.0
  }

  /** `len(a) / len(b) * 100` for a part `a` of `b` lies in [0, 100]. */
  lemma RateBounds(part: nat, whole: nat)
    requires part <= whole
    ensures whole > 0 ==> 0.0 <= part as real / whole as real * 100.0 <= 100.0
  {
    if whole > 0 {
      var q := part as real / whole as real;
      assert q * whole as real == part as real;
    }
  }

  /** The same rate, multiplied back by the whole, is 100 times the part. */
  lemma RateValue(part: nat, whole: nat)
    ensures whole > 0 ==> part as real / whole as real * 100.0 * whole as real == 100.0 * part as real
  {
    if whole > 0 {
      var q := part as real / whole as real;
      assert q * whole as real == part as real;
      assert q * 100.0 * whole as real == (q * whole as real) * 100.0;
    }
  }
}

/** `blog_creation_suite/agents/phase2/source_reliability_validation_agent.py`:
    each source passes when its random draw exceeds 0.2. The draws are a
    parameter, one per source position. */
module SourceReliability {
  import opened Wrappers
  import opened SeqUtil
  import ReferenceValidation

  function Passes(coin: nat -> real): nat -> bool {
    (i: nat) => coin(i) > 0.2
  }

  datatype Report<T> = Report(validatedSources: seq<T>, invalidSources: seq<T>, totalValidated: nat, totalInvalid: nat, validationPassRate: real)

  /** `SourceReliabilityValidationAgent.execute`; missing `sources` is []. */
  method ValidateSources<T>(sources: Option<seq<T>>, coin: nat -> real) returns (r: Report<T>)
    ensures var s := sources.GetOr([]);
      && r.validatedSources == Kept(s, Passes(coin))
      && r.invalidSources == Kept(s, NotAt(Passes(coin)))
    ensures var s := sources.GetOr([]);
      && r.totalValidated + r.totalInvalid == |s|
      && multiset(r.validatedSources) + multiset(r.invalidSources) == multiset(s)
      && IsSubsequence(r.validatedSources, s) && IsSubsequence(r.invalidSources, s)
      && 0.0 <= r.validationPassRate <= 100.0
      && (s == [] ==> r.validationPassRate == 0.0)
    ensures var s := sources.GetOr([]);
      && r.totalValidated == |r.validatedSources|
      && r.totalInvalid == |r.invalidSources|
      && r.validationPassRate == ReferenceValidation.Percentage(|r.validatedSources|, |s|)
  {
    var s := sources.GetOr([]);
    var validated, invalid := [], [];
    for n := 0 to |s|
      invariant validated == Kept(s[..n], Passes(coin))
      invariant invalid == Kept(s[..n], NotAt(Passes(coin)))
    {
      assert s[..n + 1][..n] == s[..n];
      if coin(n) > 0.2 {
        validated := validated + [s[n]];
      } else {
        invalid := invalid + [s[n]];
      }
    }
    assert s[..|s|] == s;
    KeptPartition(s, Passes(coin));
    KeptInOrder(s, Passes(coin));
    KeptInOrder(s, NotAt(Passes(coin)));
    var rate := ReferenceValidation.Percentage(|validated|, |s|);
    r := Report(validated, invalid, |validated|, |invalid|, rate);
  }
}

/** The two coin-driven gap finders:
    `agents/phase2/literature_content_gap_checker_agent.py` and
    `blog_creation_suite/agents/phase1/semantic_gap_agent.py`. */
module GapAnalysis {
  import opened Wrappers
  import opened SeqUtil

  function Drawn(coin: nat -> real): nat -> bool {
    (i: nat) => coin(i) > 0.5
  }

  datatype GapReport = GapReport(allGaps: seq<string>, prioritizedGaps: seq<string>)

  /** `[prefix + t for t in terms if random.random() > 0.5]` */
  function GapsFor(prefix: string, terms: seq<string>, coin: nat -> real): (r: seq<string>)
    ensures |r| <= |terms|
    ensures |r| == |Kept(terms, Drawn(coin))|
    ensures forall i :: 0 <= i < |r| ==> r[i] == prefix + Kept(terms, Drawn(coin))[i]
  {
    Map(Kept(terms, Drawn(coin)), t => prefix + t)
  }

  /** `LiteratureContentGapCheckerAgent.execute`; missing `existing_content`
      is []. */
  function LiteratureGaps(existingContent: Option<seq<string>>, coin: nat -> real): (r: GapReport)
    ensures r.allGaps == GapsFor("Gap related to ", existingContent.GetOr([]), coin)
    ensures r.prioritizedGaps == Take(r.allGaps, 3)
  {
    var gaps := GapsFor("Gap related to ", existingContent.GetOr([]), coin);
    GapReport(gaps, if |gaps| > 3 then gaps[..3] else gaps)
  }

  /** `SemanticGapAgent.execute`; missing `existing_content` is []. */
  function SemanticGaps(existingContent: Option<seq<string>>, coin: nat -> real): (r: GapReport)
    ensures r.allGaps == GapsFor("Keyword gap in ", existingContent.GetOr([]), coin)
    ensures r.prioritizedGaps == Take(r.allGaps, 3)
  {
    var gaps := GapsFor("Keyword gap in ", existingContent.GetOr([]), coin);
    GapReport(gaps, gaps[..if |gaps| < 3 then |gaps| else 3])
  }

  /** Both agents report at most three priority gaps, the first ones found,
      and one gap per drawn term; no input means no gaps. */
  lemma GapReportShape(existingContent: Option<seq<string>>, coin: nat -> real)
    ensures var r := LiteratureGaps(existingContent, coin);
      |r.allGaps| <= |existingContent.GetOr([])| && |r.prioritizedGaps| == (if |r.allGaps| < 3 then |r.allGaps| else 3)
    ensures var r := SemanticGaps(existingContent, coin);
      |r.allGaps| <= |existingContent.GetOr([])| && |r.prioritizedGaps| == (if |r.allGaps| < 3 then |r.allGaps| else 3)
    ensures existingContent.None? ==> LiteratureGaps(existingContent, coin) == GapReport([], []) && SemanticGaps(existingContent, coin) == GapReport([], [])
  {
  }

  /** Every drawn term yields its gap: with all draws above 0.5 there is one
      gap per term, in order. */
  lemma AllDrawnAllGaps(prefix: string, terms: seq<string>, coin: nat -> real)
    requires forall i :: 0 <= i < |terms| ==> coin(i) > 0.5
    ensures GapsFor(prefix, terms, coin) == Map(terms, t => prefix + t)
  {
    KeptAll(terms, Drawn(coin));
  }
}

/** `blog_creation_suite/agents/phase1/final_topic_selection_agent.py`: a
    random score per candidate, a stable descending sort, and the head of
    the ranking. The scores are a parameter, one per candidate position. */
module TopicSelection {
  import opened Wrappers

  type Entry = (string, real)

  function IndexOf(t: seq<Entry>, topic: string): (k: int)
    ensures -1 <= k < |t|
    ensures k >= 0 ==> t[k].0 == topic
    ensures k < 0 ==> forall j :: 0 <= j < |t| ==> t[j].0 != topic
  {
    if t == [] then -1
    else if t[|t| - 1].0 == topic then |t| - 1
    else IndexOf(t[..|t| - 1], topic)
  }

  /** `{topic: score(i) for i, topic in enumerate(candidates)}` as its
      items: a repeated topic keeps its first position and takes the score
      of its last occurrence. */
  function ScoreTable(candidates: seq<string>, score: nat -> real): seq<Entry>
    decreases |candidates|
  {
    if candidates == [] then []
    else
      var n := |candidates| - 1;
      var t := ScoreTable(candidates[..n], score);
      var k := IndexOf(t, candidates[n]);
      if k >= 0 then t[k := (candidates[n], score(n))] else t + [(candidates[n], score(n))]
  }

  predicate DistinctTopics(t: seq<Entry>) {
    forall i, j :: 0 <= i < j < |t| ==> t[i].0 != t[j].0
  }

  /** The index of the last occurrence of `topic`, which must occur. */
  function LastIndex(candidates: seq<string>, topic: string): (i: nat)
    requires topic in candidates
    ensures i < |candidates| && candidates[i] == topic
    ensures forall j :: i < j < |candidates| ==> candidates[j] != topic
  {
    if candidates[|candidates| - 1] == topic then |candidates| - 1
    else LastIndex(candidates[..|candidates| - 1], topic)
  }

  function Topics(t: seq<Entry>): set<string> {
    set j | 0 <= j < |t| :: t[j].0
  }

  lemma TopicsUpdate(t: seq<Entry>, k: nat, e: Entry)
    requires k < |t| && t[k].0 == e.0
    ensures Topics(t[k := e]) == Topics(t)
  {
    var u := t[k := e];
    forall y | y in Topics(t) ensures y in Topics(u) {
      var j :| 0 <= j < |t| && t[j].0 == y;
      assert u[j].0 == y;
    }
  }

  lemma TopicsSnoc(t: seq<Entry>, e: Entry)
    ensures Topics(t + [e]) == Topics(t) + {e.0}
  {
    var u := t + [e];
    forall y | y in Topics(t) ensures y in Topics(u) {
      var j :| 0 <= j < |t| && t[j].0 == y;
      assert u[j].0 == y;
    }
    assert u[|t|].0 == e.0;
  }

  /** The table names every candidate and nothing else. */
  lemma {:induction false} ScoreTableTopics(candidates: seq<string>, score: nat -> real)
    ensures Topics(ScoreTable(candidates, score)) == set c | c in candidates
    decreases |candidates|
  {
    if candidates != [] {
      var n := |candidates| - 1;
      var init, x := candidates[..n], candidates[n];
      ScoreTableTopics(init, score);
      var t0 := ScoreTable(init, score);
      var k := IndexOf(t0, x);
      assert candidates == init + [x];
      assert (set c | c in candidates) == (set c | c in init) + {x};
      if k >= 0 {
        TopicsUpdate(t0, k, (x, score(n)));
      } else {
        TopicsSnoc(t0, (x, score(n)));
      }
    }
  }

  /** The table names each candidate once. */
  lemma {:induction false} ScoreTableDistinct(candidates: seq<string>, score: nat -> real)
    ensures DistinctTopics(ScoreTable(candidates, score))
    decreases |candidates|
  {
    if candidates != [] {
      var n := |candidates| - 1;
      ScoreTableDistinct(candidates[..n], score);
    }
  }

  predicate HasLastScore(candidates: seq<string>, score: nat -> real, e: Entry) {
    e.0 in candidates && e.1 == score(LastIndex(candidates, e.0))
  }

  /** Each entry holds the score of its topic's last occurrence. */
  lemma {:induction false} ScoreTableScores(candidates: seq<string>, score: nat -> real)
    ensures forall j :: 0 <= j < |ScoreTable(candidates, score)| ==> HasLastScore(candidates, score, ScoreTable(candidates, score)[j])
    decreases |candidates|
  {
    if candidates != [] {
      var n := |candidates| - 1;
      var init, x := candidates[..n], candidates[n];
      ScoreTableScores(init, score);
      ScoreTableDistinct(init, score);
      var t0 := ScoreTable(init, score);
      var t := ScoreTable(candidates, score);
      var k := IndexOf(t0, x);
      assert candidates == init + [x];
      forall j | 0 <= j < |t|
        ensures HasLastScore(candidates, score, t[j])
      {
        if k >= 0 {
          assert t == t0[k := (x, score(n))];
          if j != k {
            assert t[j] == t0[j] && t0[j].0 != x;
            assert HasLastScore(init, score, t0[j]);
            assert LastIndex(candidates, t[j].0) == LastIndex(init, t[j].0);
          }
        } else {
          assert t == t0 + [(x, score(n))];
          if j < |t0| {
            assert t[j] == t0[j] && t0[j].0 != x;
            assert HasLastScore(init, score, t0[j]);
            assert LastIndex(candidates, t[j].0) == LastIndex(init, t[j].0);
          }
        }
      }
    }
  }

  /** Stable insertion into a ranking ordered by non-increasing score: the
      new entry goes after every entry scoring at least as much. */
  function Insert(ranking: seq<Entry>, e: Entry): (r: seq<Entry>)
    ensures multiset(r) == multiset(ranking) + multiset{e}
    ensures |r| == |ranking| + 1
    ensures r[0] == if ranking != [] && ranking[0].1 >= e.1 then ranking[0] else e
  {
    if ranking == [] then [e]
    else if ranking[0].1 >= e.1 then
      assert ranking == [ranking[0]] + ranking[1..];
      [ranking[0]] + Insert(ranking[1..], e)
    else
      assert ranking == [ranking[0]] + ranking[1..];
      [e] + ranking
  }

  /** `sorted(items, key=score, reverse=True)`: Python's sort is stable
      under `reverse=True`, which insertion in input order reproduces. */
  function SortDescending(items: seq<Entry>): (r: seq<Entry>)
    ensures multiset(r) == multiset(items)
    ensures |r| == |items|
    decreases |items|
  {
    if items == [] then []
    else
      var n := |items| - 1;
      assert items == items[..n] + [items[n]];
      Insert(SortDescending(items[..n]), items[n])
  }

  predicate NonIncreasing(r: seq<Entry>) {
    forall i, j :: 0 <= i < j < |r| ==> r[i].1 >= r[j].1
  }

  lemma {:induction false} InsertSorted(ranking: seq<Entry>, e: Entry)
    requires NonIncreasing(ranking)
    ensures NonIncreasing(Insert(ranking, e))
    decreases |ranking|
  {
    if ranking != [] && ranking[0].1 >= e.1 {
      InsertSorted(ranking[1..], e);
      var rest := Insert(ranking[1..], e);
      var r := Insert(ranking, e);
      assert r == [ranking[0]] + rest;
      forall j | 0 <= j < |rest| ensures ranking[0].1 >= rest[j].1 {
        assert rest[j] in multiset(ranking[1..]) + multiset{e};
        if rest[j] in multiset(ranking[1..]) {
          var m :| 0 <= m < |ranking[1..]| && ranking[1..][m] == rest[j];
        }
      }
    }
  }

  /** The ranking lists the same entries by non-increasing score. */
  lemma {:induction false} SortDescendingSorted(items: seq<Entry>)
    ensures NonIncreasing(SortDescending(items))
    decreases |items|
  {
    if items != [] {
      SortDescendingSorted(items[..|items| - 1]);
      InsertSorted(SortDescending(items[..|items| - 1]), items[|items| - 1]);
    }
  }

  /** The first entry with the highest score. */
  function FirstMax(items: seq<Entry>): (k: nat)
    requires items != []
    ensures k < |items|
    ensures forall j :: 0 <= j < |items| ==> items[j].1 <= items[k].1
    ensures forall j :: 0 <= j < k ==> items[j].1 < items[k].1
    decreases |items|
  {
    if |items| == 1 then 0
    else
      var n := |items| - 1;
      var k := FirstMax(items[..n]);
      if items[n].1 > items[k].1 then n else k
  }

  /** Ties keep their input order, so the ranking starts with the earliest
      of the highest-scoring entries. */
  lemma {:induction false} SortDescendingHead(items: seq<Entry>)
    requires items != []
    ensures SortDescending(items)[0] == items[FirstMax(items)]
    decreases |items|
  {
    var n := |items| - 1;
    if n > 0 {
      SortDescendingHead(items[..n]);
    }
  }

  lemma RankingHead(items: seq<Entry>)
    ensures items != [] ==> SortDescending(items)[0] == items[FirstMax(items)]
  {
    if items != [] {
      SortDescendingHead(items);
    }
  }

  datatype Selection = Selection(selectedTopic: Option<string>, ranking: seq<Entry>, rationale: map<string, real>)

  function TableMap(t: seq<Entry>): map<string, real> {
    if t == [] then map[] else TableMap(t[..|t| - 1])[t[|t| - 1].0 := t[|t| - 1].1]
  }

  /** Each topic of the table is a key of its map, and nothing else is. */
  lemma {:induction false} TableMapKeys(t: seq<Entry>)
    ensures TableMap(t).Keys == Topics(t)
  {
    if t != [] {
      var n := |t| - 1;
      TableMapKeys(t[..n]);
      assert t == t[..n] + [t[n]];
      TopicsSnoc(t[..n], t[n]);
    }
  }

  /** With distinct topics, the map gives each topic its entry's score. */
  lemma {:induction false} TableMapLookup(t: seq<Entry>, j: nat)
    requires DistinctTopics(t) && j < |t|
    ensures t[j].0 in TableMap(t) && TableMap(t)[t[j].0] == t[j].1
  {
    var n := |t| - 1;
    if j < n {
      TableMapLookup(t[..n], j);
      assert t[j].0 != t[n].0;
    }
  }

  /** The rationale maps every candidate to the score of its last
      occurrence, as the dict comprehension does. */
  lemma RationaleScores(candidates: seq<string>, score: nat -> real)
    ensures var m := TableMap(ScoreTable(candidates, score));
      && m.Keys == (set x | x in candidates)
      && forall x :: x in candidates ==> m[x] == score(LastIndex(candidates, x))
  {
    var t := ScoreTable(candidates, score);
    TableMapKeys(t);
    ScoreTableTopics(candidates, score);
    ScoreTableDistinct(candidates, score);
    ScoreTableScores(candidates, score);
    forall x | x in candidates
      ensures TableMap(t)[x] == score(LastIndex(candidates, x))
    {
      assert x in Topics(t);
      var j :| 0 <= j < |t| && t[j].0 == x;
      TableMapLookup(t, j);
      assert HasLastScore(candidates, score, t[j]);
    }
  }

  /** `FinalTopicSelectionAgent.execute`; missing `candidate_topics` is [].
      The rationale keeps each topic's score (its text formatting is not
      modelled). */
  function SelectTopic(candidates: Option<seq<string>>, score: nat -> real): (r: Selection)
    ensures r.selectedTopic.None? <==> candidates.GetOr([]) == []
    ensures NonIncreasing(r.ranking)
    ensures r.selectedTopic.Some? ==> forall j :: 0 <= j < |r.ranking| ==> r.ranking[0].1 >= r.ranking[j].1
    ensures var t := ScoreTable(candidates.GetOr([]), score);
      r.selectedTopic.Some? ==> t != [] && r.selectedTopic.value == t[FirstMax(t)].0
    ensures var t := ScoreTable(candidates.GetOr([]), score);
      r.ranking == SortDescending(t) && r.rationale == TableMap(t)
    ensures var c := candidates.GetOr([]);
      && r.rationale.Keys == (set x | x in c)
      && forall x :: x in c ==> r.rationale[x] == score(LastIndex(c, x))
  {
    var t := ScoreTable(candidates.GetOr([]), score);
    var ranking := SortDescending(t);
    SortDescendingSorted(t);
    RankingHead(t);
    EmptyTable(candidates.GetOr([]), score);
    RationaleScores(candidates.GetOr([]), score);
    Selection(if ranking != [] then Some(ranking[0].0) else None, ranking, TableMap(t))
  }

  lemma EmptyTable(candidates: seq<string>, score: nat -> real)
    ensures ScoreTable(candidates, score) == [] <==> candidates == []
  {
    if candidates != [] {
      var n := |candidates| - 1;
      var t0 := ScoreTable(candidates[..n], score);
      var k := IndexOf(t0, candidates[n]);
      if k >= 0 {
        assert |ScoreTable(candidates, score)| == |t0| > 0;
      }
    }
  }

  /** The selected topic is a candidate, holds the score of its last
      occurrence, scores at least as much as every candidate's final score,
      and is the earliest (by first occurrence) among those that tie. */
  lemma SelectTopicSpec(candidates: seq<string>, score: nat -> real)
    requires candidates != []
    ensures var t := ScoreTable(candidates, score);
      var sel := SelectTopic(Some(candidates), score).selectedTopic;
      && sel.Some?
      && sel.value in candidates
      && (forall c :: c in candidates ==> score(LastIndex(candidates, c)) <= score(LastIndex(candidates, sel.value)))
  {
    var t := ScoreTable(candidates, score);
    var sel := SelectTopic(Some(candidates), score).selectedTopic;
    EmptyTable(candidates, score);
    ScoreTableTopics(candidates, score);
    ScoreTableScores(candidates, score);
    var k := FirstMax(t);
    assert sel == Some(t[k].0);
    forall c | c in candidates
      ensures score(LastIndex(candidates, c)) <= score(LastIndex(candidates, t[k].0))
    {
      assert c in Topics(t);
      var j :| 0 <= j < |t| && t[j].0 == c;
      assert HasLastScore(candidates, score, t[j]) && HasLastScore(candidates, score, t[k]);
      assert t[j].1 <= t[k].1;
    }
  }

  /** Duplicates collapse: a topic named twice is ranked once, with its
      later score. */
  lemma DuplicatesCollapse(score: nat -> real)
    ensures ScoreTable(["a", "b", "a"], score) == [("a", score(2)), ("b", score(1))]
  {
    assert ["a", "b", "a"][..2] == ["a", "b"];
    assert ["a", "b"][..1] == ["a"];
    assert ["a"][..0] == [];
  }
}

/** `blog_creation_suite/agents/phase2/outline_structuring_agent.py`: one
    outline entry per key concept, with defaults for missing fields. */
module OutlineStructuring {
  import opened Wrappers
  import opened JsonValue
  import opened PyText

  datatype Section = Section(sectionTitle: Json, importance: Json, details: Option<string>)

  /** `str(v)` for the values whose text is modelled; `None` for floats,
      lists and dicts, whose Python text is not. */
  function Display(v: Json): Option<string> {
    match v
    case JStr(s) => Some(s)
    case JNull => Some("None")
    case JBool(b) => Some(if b then "True" else "False")
    case JInt(i) => Some(IntToString(i))
    case _ => None
  }

  /** The dict appended for one concept. */
  function SectionFor(concept: map<string, Json>): (s: Section)
    ensures "concept" !in concept ==> s.sectionTitle == JStr("Untitled Section") && s.details == Some("Detailed discussion on ")
    ensures "importance" !in concept ==> s.importance == JStr("Medium")
    ensures forall name :: Get(concept, "concept", JNull) == JStr(name) ==> s.sectionTitle == JStr(name) && s.details == Some("Detailed discussion on " + name)
  {
    var details := Display(Get(concept, "concept", JStr("")));
    assert "Detailed discussion on " + "" == "Detailed discussion on ";
    Section(
      Get(concept, "concept", JStr("Untitled Section")),
      Get(concept, "importance", JStr("Medium")),
      if details.Some? then Some("Detailed discussion on " + details.value) else None)
  }

  datatype Outline = Outline(outline: seq<Section>, numSections: nat)

  /** `OutlineStructuringAgent.execute`; `keyConcepts` is
      `research_findings.get("key_concepts")`, missing when either lookup
      misses, and defaults to []. */
  method StructureOutline(keyConcepts: Option<seq<map<string, Json>>>) returns (r: Outline)
    ensures var concepts := keyConcepts.GetOr([]);
      && r.numSections == |r.outline| == |concepts|
      && forall i :: 0 <= i < |concepts| ==> r.outline[i] == SectionFor(concepts[i])
  {
    var concepts := keyConcepts.GetOr([]);
    var outline := [];
    for n := 0 to |concepts|
      invariant |outline| == n
      invariant forall i :: 0 <= i < n ==> outline[i] == SectionFor(concepts[i])
    {
      outline := outline + [SectionFor(concepts[n])];
    }
    r := Outline(outline, |concepts|);
  }
}
