/** `blog_creation_suite/agents/phase15/content_rewriting_paraphrasing_agent.py`:
    the "rewrite" is the character reversal of the original. */
module ContentRewriting {
  import opened Wrappers
  import opened PyText

  const Status: string := "rewritten"

  /** `original_content[::-1]`; a missing original is "". */
  function Rewrite(originalContent: Option<string>): string {
    Reverse(originalContent.GetOr(""))
  }

  /** Character `i` of the reversal is character `n - 1 - i` of the input. */
  lemma {:induction false} ReverseIndex<T>(s: seq<T>)
    ensures forall i :: 0 <= i < |s| ==> Reverse(s)[i] == s[|s| - 1 - i]
    decreases |s|
  {
    if s != [] {
      ReverseIndex(s[1..]);
    }
  }

  /** Rewriting twice gives the original back. */
  lemma ReverseInvolution<T>(s: seq<T>)
    ensures Reverse(Reverse(s)) == s
  {
    ReverseIndex(s);
    ReverseIndex(Reverse(s));
  }

  lemma RewriteTwice(original: string)
    ensures Rewrite(Some(Rewrite(Some(original)))) == original
    ensures |Rewrite(Some(original))| == |original|
  {
    ReverseInvolution(original);
  }
}

/** `blog_creation_suite/agents/phase18/tag_fixing_agent.py`: every tag
    lowered, order and length kept. */
module TagFixing {
  import opened Wrappers
  import opened SeqUtil
  import opened PyText

  const Status: string := "done"

  /** `[tag.lower() for tag in tags]`; missing tags are []. */
  function FixTags(tags: Option<seq<string>>): (r: seq<string>)
    ensures |r| == |tags.GetOr([])|
  {
    Map(tags.GetOr([]), Lower)
  }

  /** Tag `i` of the result is tag `i` lowered, and fixing fixed tags
      changes nothing. */
  lemma FixTagsIdempotent(tags: seq<string>)
    ensures forall i :: 0 <= i < |tags| ==> FixTags(Some(tags))[i] == Lower(tags[i])
    ensures FixTags(Some(FixTags(Some(tags)))) == FixTags(Some(tags))
  {
    var once := FixTags(Some(tags));
    forall i | 0 <= i < |tags|
      ensures Lower(once[i]) == once[i]
    {
      assert forall k :: 0 <= k < |once[i]| ==> LowerChar(LowerChar(tags[i][k])) == LowerChar(tags[i][k]);
    }
  }
}

/** `agents/phase18/tag_checker_agent.py`: tags longer than two characters
    pass, in their input order. */
module TagChecker {
  import opened Wrappers
  import opened SeqUtil

  const Status: string := "done"

  predicate IsValidTag(tag: string) { |tag| > 2 }

  /** `[tag for tag in tags if len(tag) > 2]`; missing tags are []. */
  function CheckTags(tags: Option<seq<string>>): (r: seq<string>)
    ensures forall t :: t in r <==> t in tags.GetOr([]) && |t| >= 3
  {
    Filter(tags.GetOr([]), IsValidTag)
  }

  /** The valid tags are the input with the short ones dropped: kept in
      order, and checking them again keeps them all. */
  lemma CheckTagsOrder(tags: seq<string>)
    ensures IsSubsequence(CheckTags(Some(tags)), tags)
    ensures CheckTags(Some(CheckTags(Some(tags)))) == CheckTags(Some(tags))
  {
    FilterIsSubsequence(tags, IsValidTag);
    FilterIdempotent(tags, IsValidTag);
  }
}
