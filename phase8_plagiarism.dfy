/** `agents/phase8/plagiarism_detection_agent.py`: word k-shingles, Jaccard
    similarity of shingle sets, and a scan over reference texts that keeps
    the most similar one. */
module PlagiarismDetection {
  import opened Wrappers
  import opened PyText

  const DefaultK: int := 5
  const DefaultThreshold: real := 0.35

  /** `[" ".join(tokens[i:i+k]) for i in range(max(0, len(tokens)-k+1))]`,
      with Python's slice rules for any `k`. */
  function ShinglesOf(tokens: seq<string>, k: int): (r: seq<string>)
    ensures |r| == if |tokens| - k + 1 > 0 then |tokens| - k + 1 else 0
  {
    var n := if |tokens| - k + 1 > 0 then |tokens| - k + 1 else 0;
    seq(n, i requires 0 <= i < n => Join(" ", PySlice(tokens, i, i + k)))
  }

  /** `_shingle(text, k)` */
  function Shingle(text: string, k: int): seq<string> {
    ShinglesOf(LowerWordTokens(text), k)
  }

  /** For a positive window, shingle `i` joins tokens `i .. i+k-1`. */
  lemma ShingleWindows(tokens: seq<string>, k: int)
    requires k >= 1
    ensures |ShinglesOf(tokens, k)| == if |tokens| >= k then |tokens| - k + 1 else 0
    ensures forall i :: 0 <= i < |ShinglesOf(tokens, k)| ==> ShinglesOf(tokens, k)[i] == Join(" ", tokens[i..i + k])
  {
    var r := ShinglesOf(tokens, k);
    forall i | 0 <= i < |r|
      ensures r[i] == Join(" ", tokens[i..i + k])
    {
      assert PySlice(tokens, i, i + k) == tokens[i..i + k];
    }
  }

  /** Fewer tokens than the window: no shingle at all. */
  lemma ShortTextNoShingles(text: string, k: int)
    requires k >= 1 && |LowerWordTokens(text)| < k
    ensures Shingle(text, k) == []
  {
  }

  function Card<T>(s: set<T>): real { |s| as real }

  /** `_jaccard(a, b)`: 0 when both sets are empty, otherwise
      |A ∩ B| / max(1, |A ∪ B|). */
  function Jaccard(a: seq<string>, b: seq<string>): real {
    var A := set x | x in a;
    var B := set x | x in b;
    if A == {} && B == {} then 0.0
    else Card(A * B) / (if |A + B| > 1 then Card(A + B) else 1.0)
  }

  lemma SubsetCard<T>(a: set<T>, b: set<T>)
    requires a <= b
    ensures |a| <= |b|
    decreases a
  {
    if a != {} {
      var x :| x in a;
      SubsetCard(a - {x}, b - {x});
    }
  }

  lemma RatioBounds(x: real, y: real)
    requires 0.0 <= x <= y && y > 0.0
    ensures 0.0 <= x / y <= 1.0
  {
    assert x / y * y == x;
  }

  /** The similarity is a ratio in [0, 1]. */
  lemma JaccardBounds(a: seq<string>, b: seq<string>)
    ensures 0.0 <= Jaccard(a, b) <= 1.0
  {
    var A := set x | x in a;
    var B := set x | x in b;
    if !(A == {} && B == {}) {
      SubsetCard(A * B, A + B);
      if A != {} {
        var x :| x in A;
        assert x in A + B;
      } else {
        var x :| x in B;
        assert x in A + B;
      }
      assert |A + B| >= 1;
      var den := if |A + B| > 1 then Card(A + B) else 1.0;
      assert den == Card(A + B);
      RatioBounds(Card(A * B), den);
    }
  }

  lemma JaccardSymmetric(a: seq<string>, b: seq<string>)
    ensures Jaccard(a, b) == Jaccard(b, a)
  {
    var A := set x | x in a;
    var B := set x | x in b;
    assert A * B == B * A && A + B == B + A;
  }

  /** A non-empty list is identical to itself; two empty lists score 0. */
  lemma JaccardSelf(a: seq<string>)
    ensures Jaccard(a, a) == if a == [] then 0.0 else 1.0
  {
    var A := set x | x in a;
    if a != [] {
      assert a[0] in A;
      assert A * A == A && A + A == A;
      assert |A| >= 1;
      var den := if |A| > 1 then Card(A) else 1.0;
      assert den == Card(A) && den > 0.0;
      assert Jaccard(a, a) == Card(A) / den;
    } else {
      assert A == {};
    }
  }

  /** Nothing shared: similarity 0. */
  lemma JaccardDisjoint(a: seq<string>, b: seq<string>)
    requires forall x :: x in a ==> x !in b
    ensures Jaccard(a, b) == 0.0
  {
    var A := set x | x in a;
    var B := set x | x in b;
    assert A * B == {};
  }

  /** The similarity of the content's shingles to one reference. */
  function Similarity(contentShingles: seq<string>, ref: string, k: int): real {
    Jaccard(contentShingles, Shingle(ref, k))
  }

  /** The loop over `reference_texts`: the largest similarity, and the
      first reference reaching it, replaced only on a strictly larger
      value (ties keep the earliest). */
  method ScanReferences(contentShingles: seq<string>, refs: seq<string>, k: int)
    returns (maxSim: real, best: Option<string>)
    ensures forall j :: 0 <= j < |refs| ==> Similarity(contentShingles, refs[j], k) <= maxSim
    ensures best.None? ==> maxSim == 0.0
    ensures best.Some? ==>
              exists j :: 0 <= j < |refs| && refs[j] == best.value
                          && Similarity(contentShingles, refs[j], k) == maxSim
                          && (forall i :: 0 <= i < j ==> Similarity(contentShingles, refs[i], k) < maxSim)
    ensures best.Some? <==> exists j :: 0 <= j < |refs| && Similarity(contentShingles, refs[j], k) > 0.0
  {
    maxSim, best := 0.0, None;
    ghost var at := -1;
    var n := 0;
    while n < |refs|
      invariant 0 <= n <= |refs|
      invariant forall j :: 0 <= j < n ==> Similarity(contentShingles, refs[j], k) <= maxSim
      invariant at < 0 ==> best.None? && maxSim == 0.0
      invariant at >= 0 ==>
                  at < n && best == Some(refs[at]) && maxSim > 0.0
                  && Similarity(contentShingles, refs[at], k) == maxSim
                  && (forall i :: 0 <= i < at ==> Similarity(contentShingles, refs[i], k) < maxSim)
    {
      var sim := Similarity(contentShingles, refs[n], k);
      if sim > maxSim {
        maxSim, best := sim, Some(refs[n]);
        at := n;
      }
      n := n + 1;
    }
  }

  /** The fields `execute` reports, before rounding. */
  datatype Report = Report(plagiarismFound: bool, maxSimilarity: real, bestMatchPresent: bool)

  /** `PlagiarismDetectionAgent.execute`; missing keys take their defaults
      (`content` "", `reference_texts` [], `k` 5). */
  method Detect(content: Option<string>, references: Option<seq<string>>, k: Option<int>, threshold: real)
    returns (r: Report)
    ensures var refs := references.GetOr([]);
      var shC := Shingle(content.GetOr(""), k.GetOr(DefaultK));
      r.plagiarismFound <==> (threshold <= 0.0 || exists j :: 0 <= j < |refs| && Similarity(shC, refs[j], k.GetOr(DefaultK)) >= threshold)
    ensures var refs := references.GetOr([]);
      var shC := Shingle(content.GetOr(""), k.GetOr(DefaultK));
      r.bestMatchPresent <==> exists j :: 0 <= j < |refs| && Similarity(shC, refs[j], k.GetOr(DefaultK)) > 0.0
    ensures 0.0 <= r.maxSimilarity <= 1.0
    ensures var refs := references.GetOr([]);
      var kk := k.GetOr(DefaultK);
      var shC := Shingle(content.GetOr(""), kk);
      && (forall j :: 0 <= j < |refs| ==> Similarity(shC, refs[j], kk) <= r.maxSimilarity)
      && (r.maxSimilarity == 0.0 || exists j :: 0 <= j < |refs| && Similarity(shC, refs[j], kk) == r.maxSimilarity)
  {
    var text := content.GetOr("");
    var refs := references.GetOr([]);
    var kk := k.GetOr(DefaultK);
    var shC := Shingle(text, kk);
    var maxSim, best := ScanReferences(shC, refs, kk);
    if best.Some? {
      var j :| 0 <= j < |refs| && refs[j] == best.value && Similarity(shC, refs[j], kk) == maxSim;
      JaccardBounds(shC, Shingle(refs[j], kk));
    }
    r := Report(maxSim >= threshold, maxSim, best.Some?);
  }
}
