/** `agents/phase3/keyword_integration_planning_agent.py`: keywords dealt
    round-robin over the content sections. */
module KeywordPlanning {
  import opened Wrappers
  import opened SeqUtil

  const DefaultSections: seq<string> := ["Introduction", "Body", "Conclusion"]

  /** Keyword `i` goes to section `sections[i % len(sections)]`. */
  function InSection(sections: seq<string>, name: string): nat -> bool {
    (i: nat) => |sections| > 0 && sections[i % |sections|] == name
  }

  /** The keywords the plan lists under `name`, in keyword order. */
  function KeywordsFor(keywords: seq<string>, sections: seq<string>, name: string): seq<string> {
    Kept(keywords, InSection(sections, name))
  }

  /** The plan: one entry per distinct section name. */
  function Plan(keywords: seq<string>, sections: seq<string>): map<string, seq<string>> {
    map s | s in sections :: KeywordsFor(keywords, sections, s)
  }

  lemma KeywordsForSnoc(keywords: seq<string>, sections: seq<string>, name: string, i: nat)
    requires i < |keywords|
    ensures KeywordsFor(keywords[..i + 1], sections, name)
         == KeywordsFor(keywords[..i], sections, name)
            + (if InSection(sections, name)(i) then [keywords[i]] else [])
  {
    assert keywords[..i + 1][..i] == keywords[..i];
  }

  /** `KeywordIntegrationPlanningAgent.execute`: missing `keywords` is [],
      missing `content_sections` the three default sections. An empty
      section list with at least one keyword fails on `i % 0`. */
  method PlanIntegration(keywords: Option<seq<string>>, contentSections: Option<seq<string>>)
    returns (r: Outcome<map<string, seq<string>>>)
    ensures var kws := keywords.GetOr([]);
      var secs := contentSections.GetOr(DefaultSections);
      r.Raises? <==> secs == [] && kws != []
    ensures r.Raises? ==> r.error.kind == "ZeroDivisionError"
    ensures r.Returns? ==>
              r.value == Plan(keywords.GetOr([]), contentSections.GetOr(DefaultSections))
  {
    var kws := keywords.GetOr([]);
    var secs := contentSections.GetOr(DefaultSections);
    var plan := map s | s in secs :: [];
    for i := 0 to |kws|
      invariant plan.Keys == set s | s in secs
      invariant forall s :: s in secs ==> plan[s] == KeywordsFor(kws[..i], secs, s)
      invariant i > 0 ==> |secs| > 0
    {
      if |secs| == 0 {
        return Raises(PyError("ZeroDivisionError", "integer modulo by zero"));
      }
      var section := secs[i % |secs|];
      forall s | s in secs {
        KeywordsForSnoc(kws, secs, s, i);
      }
      plan := plan[section := plan[section] + [kws[i]]];
    }
    assert kws[..|kws|] == kws;
    r := Returns(plan);
  }

  lemma MulNonneg(a: int, b: int)
    requires a >= 0 && b >= 0
    ensures a * b >= 0
  {
  }

  lemma MulZeroBound(d: int, n: int)
    requires n > 0 && -n < d * n < n
    ensures d == 0
  {
    if d >= 1 {
      MulNonneg(d - 1, n);
    } else if d <= -1 {
      MulNonneg(-d - 1, n);
    }
  }

  lemma DivModUnique(a: int, n: int, q: int, r: int)
    requires n > 0 && 0 <= r < n && a == q * n + r
    ensures a / n == q && a % n == r
  {
    var q', r' := a / n, a % n;
    assert a == q' * n + r';
    assert (q' - q) * n == r - r';
    MulZeroBound(q' - q, n);
  }

  /** Moving to the next keyword index advances the section index by one,
      wrapping to 0 after the last section. */
  lemma DivModStep(m: nat, n: nat)
    requires n > 0
    ensures m % n == n - 1 ==> (m + 1) / n == m / n + 1 && (m + 1) % n == 0
    ensures m % n != n - 1 ==> (m + 1) / n == m / n && (m + 1) % n == m % n + 1
  {
    var q, r := m / n, m % n;
    assert m == q * n + r;
    if r == n - 1 {
      assert m + 1 == (q + 1) * n + 0;
      DivModUnique(m + 1, n, q + 1, 0);
    } else {
      DivModUnique(m + 1, n, q, r + 1);
    }
  }

  predicate Distinct(sections: seq<string>) {
    forall i, j :: 0 <= i < j < |sections| ==> sections[i] != sections[j]
  }

  /** With distinct names, keyword `i` goes to section `j` exactly when
      `i % n == j`. */
  lemma InSectionDistinct(sections: seq<string>, j: nat, i: nat)
    requires Distinct(sections) && j < |sections|
    ensures InSection(sections, sections[j])(i) <==> i % |sections| == j
  {
    var k := i % |sections|;
    assert k != j ==> sections[k] != sections[j];
  }

  lemma ShareStep(m: nat, n: nat, j: nat)
    requires j < n
    ensures Share(m + 1, n, j) == Share(m, n, j) + (if m % n == j then 1 else 0)
  {
    DivModStep(m, n);
  }

  /** Keywords section `j` of `n` receives out of the first `m`. */
  function Share(m: nat, n: nat, j: nat): nat
    requires n > 0
  {
    m / n + (if j < m % n then 1 else 0)
  }

  /** With distinct section names, section `j` receives every `n`-th
      keyword starting at `j`: `m / n` of them, plus one more when `j`
      falls in the last, incomplete round. */
  lemma {:induction false} SectionShare(keywords: seq<string>, sections: seq<string>, j: nat)
    requires Distinct(sections) && j < |sections|
    ensures |KeywordsFor(keywords, sections, sections[j])| == Share(|keywords|, |sections|, j)
    decreases |keywords|
  {
    var n := |sections|;
    if keywords != [] {
      var m := |keywords| - 1;
      var init := keywords[..m];
      SectionShare(init, sections, j);
      assert keywords[..m + 1] == keywords;
      KeywordsForSnoc(keywords, sections, sections[j], m);
      InSectionDistinct(sections, j, m);
      ShareStep(m, n, j);
    }
  }

  /** Round-robin balance: with distinct section names, any two sections
      receive numbers of keywords that differ by at most one. */
  lemma Balanced(keywords: seq<string>, sections: seq<string>, j: nat, k: nat)
    requires Distinct(sections) && j < |sections| && k < |sections|
    ensures var a := |KeywordsFor(keywords, sections, sections[j])|;
      var b := |KeywordsFor(keywords, sections, sections[k])|;
      -1 <= a - b <= 1
  {
    SectionShare(keywords, sections, j);
    SectionShare(keywords, sections, k);
    var m, n := |keywords|, |sections|;
    assert 0 <= m % n < n;
  }

  /** Every keyword is listed under the section its index selects. */
  lemma {:induction false} KeywordPlaced(keywords: seq<string>, sections: seq<string>, i: nat)
    requires i < |keywords| && |sections| > 0
    ensures keywords[i] in KeywordsFor(keywords, sections, sections[i % |sections|])
    decreases |keywords|
  {
    var m := |keywords| - 1;
    var name := sections[i % |sections|];
    KeywordsForSnoc(keywords, sections, name, m);
    assert keywords[..m + 1] == keywords;
    if i < m {
      KeywordPlaced(keywords[..m], sections, i);
    }
  }

  /** The lists of sections `0 .. J-1`, pooled. */
  function PlanBag(keywords: seq<string>, sections: seq<string>, J: nat): multiset<string>
    requires J <= |sections|
  {
    if J == 0 then multiset{}
    else PlanBag(keywords, sections, J - 1) + multiset(KeywordsFor(keywords, sections, sections[J - 1]))
  }

  /** Keyword `i` goes to one of the first `J` sections. */
  function Before(n: nat, J: nat): nat -> bool {
    (i: nat) => n > 0 && i % n < J
  }

  lemma {:induction false} PlanBagBefore(keywords: seq<string>, sections: seq<string>, J: nat)
    requires Distinct(sections) && J <= |sections|
    ensures PlanBag(keywords, sections, J) == multiset(Kept(keywords, Before(|sections|, J)))
  {
    var n := |sections|;
    if J == 0 {
      forall i | 0 <= i < |keywords|
        ensures !Before(n, 0)(i)
      {
      }
      KeptNone(keywords, Before(n, 0));
    } else {
      PlanBagBefore(keywords, sections, J - 1);
      forall i: nat | i < |keywords|
        ensures (Before(n, J)(i) <==> Before(n, J - 1)(i) || InSection(sections, sections[J - 1])(i))
             && !(Before(n, J - 1)(i) && InSection(sections, sections[J - 1])(i))
      {
        InSectionDistinct(sections, J - 1, i);
      }
      KeptUnion(keywords, Before(n, J - 1), InSection(sections, sections[J - 1]), Before(n, J));
    }
  }

  /** With distinct section names the plan is a partition of the keywords:
      pooled over all sections, every keyword appears exactly as often as
      in the input. */
  lemma PlanCoversKeywords(keywords: seq<string>, sections: seq<string>)
    requires Distinct(sections) && |sections| > 0
    ensures PlanBag(keywords, sections, |sections|) == multiset(keywords)
  {
    PlanBagBefore(keywords, sections, |sections|);
    forall i | 0 <= i < |keywords|
      ensures Before(|sections|, |sections|)(i)
    {
    }
    KeptAll(keywords, Before(|sections|, |sections|));
  }

  /** A section name listed several times is one key that collects the
      keywords of all its positions; when it is the only name, it takes
      every keyword in order. */
  lemma OneSectionTakesAll(keywords: seq<string>, sections: seq<string>)
    requires |sections| > 0 && forall i :: 0 <= i < |sections| ==> sections[i] == sections[0]
    ensures Plan(keywords, sections) == map[sections[0] := keywords]
  {
    forall i: nat | i < |keywords|
      ensures InSection(sections, sections[0])(i)
    {
    }
    KeptAll(keywords, InSection(sections, sections[0]));
  }
}

/** `blog_creation_suite/agents/phase3/keyword_clustering_agent.py`: each
    keyword joins the first existing cluster whose random draw is below
    0.5, or opens a new cluster. `coin(i, c)` is the draw made when
    keyword `i` tries the cluster at position `c` (ids start at 1). */
module KeywordClustering {
  import opened Wrappers
  import opened SeqUtil

  /** The position of the first cluster `c` in `from .. count-1` that
      accepts keyword `i`. */
  function FirstAccepting(i: nat, from: nat, count: nat, coin: (nat, nat) -> real): (r: Option<nat>)
    ensures r.Some? ==> from <= r.value < count && coin(i, r.value) < 0.5
                        && forall c :: from <= c < r.value ==> coin(i, c) >= 0.5
    ensures r.None? ==> forall c :: from <= c < count ==> coin(i, c) >= 0.5
    decreases count - from
  {
    if from >= count then None
    else if coin(i, from) < 0.5 then Some(from)
    else FirstAccepting(i, from + 1, count, coin)
  }

  /** Keyword `i` placed into the clusters built so far. */
  function Place(cs: seq<seq<string>>, i: nat, kw: string, coin: (nat, nat) -> real): seq<seq<string>> {
    match FirstAccepting(i, 0, |cs|, coin)
    case Some(c) => cs[c := cs[c] + [kw]]
    case None => cs + [[kw]]
  }

  /** The clusters after the keywords have been placed one by one. */
  function Clustering(keywords: seq<string>, coin: (nat, nat) -> real): seq<seq<string>>
    decreases |keywords|
  {
    if keywords == [] then []
    else
      var m := |keywords| - 1;
      Place(Clustering(keywords[..m], coin), m, keywords[m], coin)
  }

  /** Cluster ids run from 1 to the number of clusters. */
  predicate IsId(id: int, count: nat) {
    1 <= id <= count
  }

  /** Cluster at position `c` has id `c + 1`. */
  function ClusterMap(cs: seq<seq<string>>): map<int, seq<string>> {
    map id | 1 <= id <= |cs| && IsId(id, |cs|) :: cs[id - 1]
  }

  lemma ClusterMapAppend(cs: seq<seq<string>>, x: seq<string>)
    ensures ClusterMap(cs + [x]) == ClusterMap(cs)[|cs| + 1 := x]
  {
    var a, b := ClusterMap(cs + [x]), ClusterMap(cs)[|cs| + 1 := x];
    assert a.Keys == b.Keys;
    forall id | id in a.Keys
      ensures a[id] == b[id]
    {
    }
  }

  lemma ClusterMapUpdate(cs: seq<seq<string>>, c: nat, x: seq<string>)
    requires c < |cs|
    ensures ClusterMap(cs[c := x]) == ClusterMap(cs)[c + 1 := x]
  {
    var a, b := ClusterMap(cs[c := x]), ClusterMap(cs)[c + 1 := x];
    assert a.Keys == b.Keys;
    forall id | id in a.Keys
      ensures a[id] == b[id]
    {
    }
  }

  lemma ClusteringSnoc(keywords: seq<string>, i: nat, coin: (nat, nat) -> real)
    requires i < |keywords|
    ensures Clustering(keywords[..i + 1], coin) == Place(Clustering(keywords[..i], coin), i, keywords[i], coin)
  {
    assert keywords[..i + 1][..i] == keywords[..i];
  }

  lemma EmptyClusterMap(cs: seq<seq<string>>)
    ensures ClusterMap(cs) == map[] <==> cs == []
  {
    assert cs != [] ==> 1 in ClusterMap(cs);
  }

  /** A keyword no cluster accepts opens the next id. */
  lemma PlaceOpens(cs: seq<seq<string>>, i: nat, kw: string, coin: (nat, nat) -> real)
    requires FirstAccepting(i, 0, |cs|, coin).None?
    ensures ClusterMap(Place(cs, i, kw, coin)) == ClusterMap(cs)[|cs| + 1 := [kw]]
    ensures |Place(cs, i, kw, coin)| == |cs| + 1
  {
    ClusterMapAppend(cs, [kw]);
  }

  /** A keyword cluster `c` accepts joins it, under id `c + 1`. */
  lemma PlaceJoins(cs: seq<seq<string>>, i: nat, kw: string, coin: (nat, nat) -> real)
    requires FirstAccepting(i, 0, |cs|, coin).Some?
    ensures var c := FirstAccepting(i, 0, |cs|, coin).value;
      && c + 1 in ClusterMap(cs)
      && ClusterMap(Place(cs, i, kw, coin)) == ClusterMap(cs)[c + 1 := ClusterMap(cs)[c + 1] + [kw]]
      && |Place(cs, i, kw, coin)| == |cs|
  {
    var c := FirstAccepting(i, 0, |cs|, coin).value;
    ClusterMapUpdate(cs, c, cs[c] + [kw]);
  }

  /** Tries the existing clusters in id order for keyword `i`; adds it to
      the first that accepts, and reports whether one did. */
  method TryExisting(clusters: map<int, seq<string>>, count: nat, i: nat, kw: string, coin: (nat, nat) -> real)
    returns (joined: bool, out: map<int, seq<string>>)
    requires forall id :: 1 <= id <= count ==> id in clusters
    ensures joined <==> FirstAccepting(i, 0, count, coin).Some?
    ensures joined ==>
              var c := FirstAccepting(i, 0, count, coin).value;
              out == clusters[c + 1 := clusters[c + 1] + [kw]]
    ensures !joined ==> out == clusters
  {
    out := clusters;
    joined := false;
    var id := 1;
    while id <= count
      invariant 1 <= id <= count + 1
      invariant FirstAccepting(i, 0, count, coin) == FirstAccepting(i, id - 1, count, coin)
      invariant out == clusters
    {
      if coin(i, id - 1) < 0.5 {
        out := out[id := out[id] + [kw]];
        joined := true;
        return;
      }
      id := id + 1;
    }
  }

  /** `KeywordClusteringAgent.execute`; a missing `keywords` is []. */
  method ClusterKeywords(keywords: Option<seq<string>>, coin: (nat, nat) -> real)
    returns (clusters: map<int, seq<string>>)
    ensures clusters == ClusterMap(Clustering(keywords.GetOr([]), coin))
  {
    var kws := keywords.GetOr([]);
    clusters := map[];
    var clusterId := 1;
    ghost var cs: seq<seq<string>> := [];
    for i := 0 to |kws|
      invariant cs == Clustering(kws[..i], coin)
      invariant clusters == ClusterMap(cs)
      invariant clusterId == if cs == [] then 1 else |cs|
    {
      var kw := kws[i];
      ClusteringSnoc(kws, i, coin);
      if clusters == map[] {
        EmptyClusterMap(cs);
        PlaceOpens(cs, i, kw, coin);
        clusters := clusters[clusterId := [kw]];
      } else {
        assert 1 in clusters;
        var joined;
        joined, clusters := TryExisting(clusters, clusterId, i, kw, coin);
        if joined {
          PlaceJoins(cs, i, kw, coin);
        } else {
          clusterId := clusterId + 1;
          PlaceOpens(cs, i, kw, coin);
          clusters := clusters[clusterId := [kw]];
        }
      }
      cs := Place(cs, i, kw, coin);
    }
    assert kws[..|kws|] == kws;
  }

  /** The keywords of all clusters, pooled. */
  function Bag(cs: seq<seq<string>>): multiset<string>
    decreases |cs|
  {
    if cs == [] then multiset{} else Bag(cs[..|cs| - 1]) + multiset(cs[|cs| - 1])
  }

  lemma {:induction false} BagAppend(cs: seq<seq<string>>, x: seq<string>)
    ensures Bag(cs + [x]) == Bag(cs) + multiset(x)
  {
    assert (cs + [x])[..|cs|] == cs;
  }

  lemma {:induction false} BagUpdate(cs: seq<seq<string>>, c: nat, kw: string)
    requires c < |cs|
    ensures Bag(cs[c := cs[c] + [kw]]) == Bag(cs) + multiset{kw}
    decreases |cs|
  {
    var m := |cs| - 1;
    var cs' := cs[c := cs[c] + [kw]];
    if c < m {
      BagUpdate(cs[..m], c, kw);
      assert cs'[..m] == cs[..m][c := cs[c] + [kw]];
    } else {
      assert cs'[..m] == cs[..m];
    }
  }

  /** Clustering partitions the keywords: pooled over all clusters, each
      keyword appears exactly as often as in the input. */
  lemma {:induction false} ClusteringPartition(keywords: seq<string>, coin: (nat, nat) -> real)
    ensures Bag(Clustering(keywords, coin)) == multiset(keywords)
    decreases |keywords|
  {
    if keywords != [] {
      var m := |keywords| - 1;
      var cs := Clustering(keywords[..m], coin);
      ClusteringPartition(keywords[..m], coin);
      assert keywords == keywords[..m] + [keywords[m]];
      match FirstAccepting(m, 0, |cs|, coin)
      case Some(c) => BagUpdate(cs, c, keywords[m]);
      case None => BagAppend(cs, [keywords[m]]);
    }
  }

  /** Clusters are never empty, there are at most as many as keywords,
      each keeps its keywords in input order, and the first keyword opens
      cluster 1. */
  lemma {:induction false} ClusteringShape(keywords: seq<string>, coin: (nat, nat) -> real)
    ensures var cs := Clustering(keywords, coin);
      && |cs| <= |keywords|
      && (|cs| == 0 <==> keywords == [])
      && (forall c :: 0 <= c < |cs| ==> cs[c] != [] && IsSubsequence(cs[c], keywords))
      && (keywords != [] ==> cs[0][0] == keywords[0])
    decreases |keywords|
  {
    if keywords != [] {
      var m := |keywords| - 1;
      var init, x := keywords[..m], keywords[m];
      var cs := Clustering(init, coin);
      ClusteringShape(init, coin);
      assert keywords == init + [x];
      var cs' := Clustering(keywords, coin);
      forall c | 0 <= c < |cs|
        ensures IsSubsequence(cs[c], keywords) && IsSubsequence(cs[c] + [x], keywords)
      {
        SubsequenceSnoc(cs[c], init, x);
      }
      match FirstAccepting(m, 0, |cs|, coin)
      case Some(c) =>
        assert cs' == cs[c := cs[c] + [x]];
      case None =>
        assert cs' == cs + [[x]];
        SingletonSubsequence(x, keywords);
    }
  }

  /** Every draw rejects: each keyword gets a cluster of its own. */
  lemma {:induction false} AllRejected(keywords: seq<string>, coin: (nat, nat) -> real)
    requires forall i, c :: coin(i, c) >= 0.5
    ensures Clustering(keywords, coin) == Map(keywords, (k: string) => [k])
    decreases |keywords|
  {
    if keywords != [] {
      var m := |keywords| - 1;
      AllRejected(keywords[..m], coin);
      var cs := Clustering(keywords[..m], coin);
      assert FirstAccepting(m, 0, |cs|, coin).None?;
    }
  }

  /** Every first draw accepts: all keywords end up in cluster 1, in order. */
  lemma {:induction false} AllAccepted(keywords: seq<string>, coin: (nat, nat) -> real)
    requires forall i: nat :: coin(i, 0) < 0.5
    ensures Clustering(keywords, coin) == if keywords == [] then [] else [keywords]
    decreases |keywords|
  {
    if keywords != [] {
      var m := |keywords| - 1;
      AllAccepted(keywords[..m], coin);
      assert keywords == keywords[..m] + [keywords[m]];
    }
  }
}
