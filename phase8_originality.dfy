/** `agents/phase8/originality_check_plagiarism_detection_agent.py`: an
    originality score from the type-token ratio and a length factor, and a
    plagiarism flag from an upstream similarity. */
module OriginalityCheck {
  import opened Wrappers
  import opened PyText
  import opened SeqUtil

  const DefaultIdealLen: int := 400
  const DefaultSimilarityThreshold: real := 0.35

  function Distinct(tokens: seq<string>): set<string> {
    set t | t in tokens
  }

  /** `_type_token_ratio`: distinct lowercase word tokens over all of them,
      0 for text without a word. */
  function TypeTokenRatio(text: string): real {
    var tokens := LowerWordTokens(text);
    if tokens == [] then 0.0 else |Distinct(tokens)| as real / |tokens| as real
  }

  /** The ratio is 0 without tokens and otherwise lies in (0, 1]. */
  lemma TypeTokenRatioBounds(text: string)
    ensures LowerWordTokens(text) == [] ==> TypeTokenRatio(text) == 0.0
    ensures LowerWordTokens(text) != [] ==> 0.0 < TypeTokenRatio(text) <= 1.0
  {
    var tokens := LowerWordTokens(text);
    if tokens != [] {
      DistinctCount(tokens);
      var d := |Distinct(tokens)| as real;
      var n := |tokens| as real;
      assert 1.0 <= d <= n;
      assert d / n * n == d;
    }
  }

  /** A text whose tokens are all different has ratio 1. */
  lemma TypeTokenRatioAllDistinct(text: string)
    requires LowerWordTokens(text) != []
    requires forall i, j :: 0 <= i < j < |LowerWordTokens(text)| ==> LowerWordTokens(text)[i] != LowerWordTokens(text)[j]
    ensures TypeTokenRatio(text) == 1.0
  {
    var tokens := LowerWordTokens(text);
    DistinctCard(tokens);
    var n := |tokens| as real;
    assert n > 0.0 && |Distinct(tokens)| as real == n;
    assert n / n == 1.0;
    assert TypeTokenRatio(text) == n / n;
  }

  lemma {:induction false} DistinctCard(s: seq<string>)
    requires forall i, j :: 0 <= i < j < |s| ==> s[i] != s[j]
    ensures |Distinct(s)| == |s|
  {
    if s != [] {
      DistinctCard(s[1..]);
      assert Distinct(s) == Distinct(s[1..]) + {s[0]};
      assert s[0] !in Distinct(s[1..]);
    }
  }

  function Abs(x: int): nat { if x < 0 then -x else x }

  /** `1.0 - min(1.0, abs(length - ideal) / max(1, ideal))` */
  function LengthScore(length: int, ideal: int): real {
    var gap := Abs(length - ideal) as real / (if ideal > 1 then ideal else 1) as real;
    1.0 - (if gap < 1.0 then gap else 1.0)
  }

  /** The length factor lies in [0, 1] and is 1 exactly at the ideal length. */
  lemma LengthScoreBounds(length: int, ideal: int)
    ensures 0.0 <= LengthScore(length, ideal) <= 1.0
    ensures LengthScore(length, ideal) == 1.0 <==> length == ideal
  {
    var den := (if ideal > 1 then ideal else 1) as real;
    var num := Abs(length - ideal) as real;
    var gap := num / den;
    assert gap * den == num;
    assert gap >= 0.0;
    assert gap == 0.0 <==> length == ideal;
  }

  /** `max(0.0, min(1.0, 0.6 * ttr + 0.4 * length_score))` */
  function OriginalityScore(ttr: real, lengthScore: real): (r: real)
    ensures 0.0 <= r <= 1.0
  {
    var raw := 0.6 * ttr + 0.4 * lengthScore;
    if raw < 0.0 then 0.0 else if raw > 1.0 then 1.0 else raw
  }

  /** With both signals already in [0, 1] the clamp never bites. */
  lemma ClampInactive(ttr: real, lengthScore: real)
    requires 0.0 <= ttr <= 1.0 && 0.0 <= lengthScore <= 1.0
    ensures OriginalityScore(ttr, lengthScore) == 0.6 * ttr + 0.4 * lengthScore
  {
  }

  datatype Report = Report(originalityScore: real, plagiarismFound: bool, ttr: real, lengthScore: real, maxSimilarity: real)

  /** `OriginalityCheckPlagiarismDetectionAgent.execute` before rounding:
      missing `content` is "", missing `max_similarity` 0.0 and missing
      `similarity_threshold` 0.35; the length is counted in characters. */
  function Check(content: Option<string>, maxSimilarity: Option<real>, threshold: Option<real>, idealLen: int): (r: Report)
    ensures 0.0 <= r.originalityScore <= 1.0
    ensures r.plagiarismFound <==> maxSimilarity.GetOr(0.0) >= threshold.GetOr(DefaultSimilarityThreshold)
  {
    var text := content.GetOr("");
    var ttr := TypeTokenRatio(text);
    var ls := LengthScore(|text|, idealLen);
    var sim := maxSimilarity.GetOr(0.0);
    Report(OriginalityScore(ttr, ls), sim >= threshold.GetOr(DefaultSimilarityThreshold), ttr, ls, sim)
  }

  /** The flag ignores the content entirely; the score ignores the
      similarity entirely. */
  lemma FlagIgnoresContent(c1: Option<string>, c2: Option<string>, s1: Option<real>, s2: Option<real>, threshold: Option<real>, idealLen: int)
    ensures Check(c1, s1, threshold, idealLen).plagiarismFound == Check(c2, s1, threshold, idealLen).plagiarismFound
    ensures Check(c1, s1, threshold, idealLen).originalityScore == Check(c1, s2, threshold, idealLen).originalityScore
  {
  }

  /** The reported score is the weighted sum of the two signals, both of
      which lie in [0, 1]. */
  lemma CheckScoreIsWeightedSum(content: Option<string>, maxSimilarity: Option<real>, threshold: Option<real>, idealLen: int)
    ensures var r := Check(content, maxSimilarity, threshold, idealLen);
      0.0 <= r.ttr <= 1.0 && 0.0 <= r.lengthScore <= 1.0 && r.originalityScore == 0.6 * r.ttr + 0.4 * r.lengthScore
  {
    var text := content.GetOr("");
    TypeTokenRatioBounds(text);
    LengthScoreBounds(|text|, idealLen);
  }
}

/** `agents/phase8/final_originality_validator_agent.py`: the final gate on
    the originality score and the plagiarism flag. */
module OriginalityGate {
  import opened Wrappers
  import opened JsonValue

  const DefaultMinOriginality: real := 0.55

  datatype Verdict = Verdict(validOriginality: bool, threshold: real)

  /** `FinalOriginalityValidatorAgent.execute`: a missing score reads as
      0.0, and the flag goes through `bool(...)`, missing meaning False. */
  function Validate(originalityScore: Option<real>, plagiarismFound: Option<Json>, minOriginality: real): (r: Verdict)
    ensures r.threshold == minOriginality
  {
    var score := originalityScore.GetOr(0.0);
    var flag := Truthy(plagiarismFound.GetOr(JBool(false)));
    Verdict(score >= minOriginality && !flag, minOriginality)
  }

  /** Valid exactly when the score reaches the minimum and no truthy flag is
      present. */
  lemma ValidateIff(score: real, flag: Option<Json>, minOriginality: real)
    ensures Validate(Some(score), flag, minOriginality).validOriginality
        <==> score >= minOriginality && (flag.None? || !Truthy(flag.value))
  {
  }

  /** Any truthy flag vetoes, whatever the score. */
  lemma FlagVetoes(score: Option<real>, flag: Json, minOriginality: real)
    requires Truthy(flag)
    ensures !Validate(score, Some(flag), minOriginality).validOriginality
  {
  }

  /** A missing score fails any positive minimum. */
  lemma MissingScoreFails(flag: Option<Json>, minOriginality: real)
    requires minOriginality > 0.0
    ensures !Validate(None, flag, minOriginality).validOriginality
  {
  }

  /** Raising the score never turns a valid verdict invalid. */
  lemma ValidateMonotone(s1: real, s2: real, flag: Option<Json>, minOriginality: real)
    requires s1 <= s2 && Validate(Some(s1), flag, minOriginality).validOriginality
    ensures Validate(Some(s2), flag, minOriginality).validOriginality
  {
  }
}
