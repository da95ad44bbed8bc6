/** `agents/phase8/ai_hallucination_detection_agent.py`: claim-like
    sentences without a citation marker are unsupported, and they count as
    hallucinations only when no source list was given. */
module AiHallucinationDetection {
  import opened Wrappers
  import opened PyText
  import opened SeqUtil
  import opened SentenceCues

  /** `re.search(r"\d|(according to|study|report|source)", s, re.I)` */
  predicate IsClaim(s: string) {
    HasDigit(s) || HasCue(Lower(s))
  }

  predicate HasCue(ls: string) {
    Contains(ls, "according to") || Contains(ls, "study") || Contains(ls, "report") || Contains(ls, "source")
  }

  /** `_claim_sentences` */
  function ClaimSentences(text: string): seq<string> {
    Filter(Sentences(text), IsClaim)
  }

  /** `re.search(r"\[\d+\]|\(.*\d{4}.*\)|doi:|arxiv:", c, re.I)` */
  predicate HasCitationMarker(c: string) {
    HasBracketNumber(c) || HasParenYear(c) || Contains(Lower(c), "doi:") || Contains(Lower(c), "arxiv:")
  }

  /** The loop of `execute` that collects the claims without a marker. */
  method UnsupportedClaims(claims: seq<string>) returns (unsupported: seq<string>)
    ensures unsupported == Filter(claims, Not(HasCitationMarker))
  {
    unsupported := [];
    for n := 0 to |claims|
      invariant unsupported == Filter(claims[..n], Not(HasCitationMarker))
    {
      var c := claims[n];
      FilterAppend(claims[..n], c, Not(HasCitationMarker));
      assert claims[..n + 1] == claims[..n] + [c];
      if !HasCitationMarker(c) {
        unsupported := unsupported + [c];
      }
    }
    assert claims[..|claims|] == claims;
  }

  /** `set(s.strip().lower() for s in sources)` */
  function NormalisedSources(sources: seq<string>): set<string> {
    set i | 0 <= i < |sources| :: Lower(Strip(sources[i]))
  }

  /** The normalised set is empty exactly when the list is: even a list of
      blank strings yields the one-element set {""}. */
  lemma NormalisedSourcesEmpty(sources: seq<string>)
    ensures NormalisedSources(sources) == {} <==> sources == []
  {
    if sources != [] {
      assert Lower(Strip(sources[0])) in NormalisedSources(sources);
    }
  }

  datatype Report = Report(hallucinationDetected: bool, unsupportedClaims: seq<string>)

  /** `AIHallucinationDetectionAgent.execute`; missing `content` is "" and
      missing `sources` is []. */
  method Detect(content: Option<string>, sources: Option<seq<string>>) returns (r: Report)
    ensures var unsupported := Filter(ClaimSentences(content.GetOr("")), Not(HasCitationMarker));
      && (r.hallucinationDetected <==> unsupported != [] && sources.GetOr([]) == [])
      && r.unsupportedClaims == Take(unsupported, 10)
  {
    var provided := NormalisedSources(sources.GetOr([]));
    var claims := ClaimSentences(content.GetOr(""));
    var unsupported := UnsupportedClaims(claims);
    NormalisedSourcesEmpty(sources.GetOr([]));
    r := Report(|unsupported| > 0 && |provided| == 0, Take(unsupported, 10));
  }

  /** Every reported claim is a claim-like sentence of the text without a
      citation marker. */
  lemma ReportedClaimsUnsupported(text: string, c: string)
    requires c in Take(Filter(ClaimSentences(text), Not(HasCitationMarker)), 10)
    ensures c in Sentences(text) && IsClaim(c) && !HasCitationMarker(c)
  {
    var u := Filter(ClaimSentences(text), Not(HasCitationMarker));
    assert c in u;
  }
}

/** `blog_creation_suite/agents/phase8/content_hallucination_detection_agent.py`:
    sentences with a year or a capitalised word that are long and carry no
    link or numeric citation are suspicious. */
module ContentHallucinationDetection {
  import opened Wrappers
  import opened PyText
  import opened SeqUtil
  import opened SentenceCues

  /** `re.search(r"(19|20)\d{2}|[A-Z][a-z]{2,}", s)` */
  predicate IsTrigger(s: string) {
    HasYear(s) || HasCapitalWord(s)
  }

  /** `_factual_triggers` */
  function FactualTriggers(text: string): seq<string> {
    Filter(Sentences(text), IsTrigger)
  }

  /** More than four words and no `http[s]?://` or `\[[0-9]+\]` marker. */
  predicate IsSuspicious(s: string) {
    |Words(s)| > 4 && !(Contains(s, "http://") || Contains(s, "https://") || HasBracketNumber(s))
  }

  function SuspiciousSentences(text: string): seq<string> {
    Filter(FactualTriggers(text), IsSuspicious)
  }

  datatype Report = Report(hallucinationDetected: bool, suspiciousSentences: seq<string>)

  /** `ContentHallucinationDetectionAgent.execute`; missing `content` is "". */
  function Detect(content: Option<string>): (r: Report)
    ensures r.hallucinationDetected <==> exists s :: s in Sentences(content.GetOr("")) && IsTrigger(s) && IsSuspicious(s)
    ensures |r.suspiciousSentences| <= 10
    ensures forall s :: s in r.suspiciousSentences ==> s in Sentences(content.GetOr("")) && IsTrigger(s) && IsSuspicious(s)
    ensures var all := SuspiciousSentences(content.GetOr(""));
      |r.suspiciousSentences| == (if |all| < 10 then |all| else 10) && StartsWith(all, r.suspiciousSentences)
  {
    var suspicious := SuspiciousSentences(content.GetOr(""));
    assert suspicious != [] ==> suspicious[0] in suspicious;
    Report(|suspicious| > 0, Take(suspicious, 10))
  }

  /** The suspicious sentences keep the order of the text. */
  lemma SuspiciousInOrder(text: string)
    ensures IsSubsequence(SuspiciousSentences(text), Sentences(text))
  {
    var trig := FactualTriggers(text);
    FilterIsSubsequence(Sentences(text), IsTrigger);
    FilterIsSubsequence(trig, IsSuspicious);
    SubsequenceTransitive(SuspiciousSentences(text), trig, Sentences(text));
  }

  lemma {:induction false} SubsequenceTransitive<T>(a: seq<T>, b: seq<T>, c: seq<T>)
    requires IsSubsequence(a, b) && IsSubsequence(b, c)
    ensures IsSubsequence(a, c)
    decreases |c|
  {
    if a != [] && b != [] && c != [] {
      if b[0] == c[0] {
        if a[0] == b[0] {
          SubsequenceTransitive(a[1..], b[1..], c[1..]);
        } else {
          SubsequenceTransitive(a, b[1..], c[1..]);
        }
      } else {
        SubsequenceTransitive(a, b, c[1..]);
        SkipKeepsSubsequence(a, c[0], c[1..]);
        assert [c[0]] + c[1..] == c;
      }
    }
  }
}
