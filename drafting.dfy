/** `agents/phase4/snippet_generator_agent.py`: the content cut into
    consecutive 50-character snippets, at most `num_snippets` of them. */
module SnippetGeneration {
  import opened Wrappers
  import opened PyText

  const Width: int := 50
  const DefaultCount: int := 3

  /** `min(len(content), num_snippets * 50)`; negative for a negative count. */
  function Limit(content: string, numSnippets: int): int {
    if |content| < numSnippets * Width then |content| else numSnippets * Width
  }

  /** `len(range(0, limit, 50))` */
  function StartCount(limit: int): nat {
    if limit <= 0 then 0 else (limit + Width - 1) / Width
  }

  /** `[content[i:i+50] for i in range(0, limit, 50)]` */
  function Snippets(content: string, numSnippets: int): seq<string> {
    var n := StartCount(Limit(content, numSnippets));
    seq(n, i requires 0 <= i < n => PySlice(content, Width * i, Width * i + Width))
  }

  /** `SnippetGeneratorAgent.execute`'s snippets; missing `content` is "",
      missing `num_snippets` is 3. */
  function Generate(content: Option<string>, numSnippets: Option<int>): seq<string> {
    Snippets(content.GetOr(""), numSnippets.GetOr(DefaultCount))
  }

  /** The covered prefix: `max(0, limit)` characters. */
  function Covered(content: string, numSnippets: int): (k: nat)
    ensures k <= |content|
  {
    var l := Limit(content, numSnippets);
    if l < 0 then 0 else l
  }

  /** There is no snippet exactly when the content is empty or the count
      is not positive; each snippet is the next piece of the covered
      prefix, non-empty, at most 50 characters, and all but the last are
      exactly 50. */
  lemma SnippetsShape(content: string, numSnippets: int)
    ensures var s := Snippets(content, numSnippets);
      && (s == [] <==> content == [] || numSnippets <= 0)
      && (forall i :: 0 <= i < |s| ==>
            var hi := if Width * i + Width < Covered(content, numSnippets) then Width * i + Width
                      else Covered(content, numSnippets);
            Width * i < hi && s[i] == content[Width * i..hi])
      && (forall i :: 0 <= i < |s| ==> 0 < |s[i]| <= Width)
      && (forall i :: 0 <= i < |s| - 1 ==> |s[i]| == Width)
  {
    var s := Snippets(content, numSnippets);
    var L := Covered(content, numSnippets);
    var n := |s|;
    assert n == StartCount(Limit(content, numSnippets));
    assert n > 0 ==> Width * (n - 1) < L <= Width * n;
    forall i | 0 <= i < n
      ensures var hi := if Width * i + Width < L then Width * i + Width else L;
        Width * i < hi && s[i] == content[Width * i..hi]
    {
      assert s[i] == PySlice(content, Width * i, Width * i + Width);
    }
  }

  /** Read one after the other, the snippets are exactly the covered
      prefix of the content. */
  lemma SnippetsJoin(content: string, numSnippets: int)
    ensures Flatten(Snippets(content, numSnippets)) == content[..Covered(content, numSnippets)]
  {
    var s := Snippets(content, numSnippets);
    var L := Covered(content, numSnippets);
    SnippetsShape(content, numSnippets);
    assert |s| > 0 ==> Width * (|s| - 1) < L <= Width * |s|;
    var k := 0;
    while k < |s|
      invariant 0 <= k <= |s|
      invariant Flatten(s[..k]) == content[..if Width * k < L then Width * k else L]
    {
      var hi := if Width * k + Width < L then Width * k + Width else L;
      assert Width * k < L;
      FlattenAppend(s[..k], [s[k]]);
      FlattenOne(s[k]);
      assert s[..k + 1] == s[..k] + [s[k]];
      assert content[..hi] == content[..Width * k] + content[Width * k..hi];
      k := k + 1;
    }
    assert s[..|s|] == s;
  }
}

/** `agents/phase4/meta_description_snippet_agent.py`: the meta
    description is the first `max_length` characters plus "...". */
module MetaDescriptionSnippet {
  import opened Wrappers
  import opened PyText

  const DefaultMaxLength: int := 160
  const SampleSnippet: string := "Sample snippet from content"

  /** `content[:max_length] + "..."`, with Python's slice rules for a
      negative `max_length`. */
  function Truncated(content: string, maxLength: int): (r: string)
    ensures EndsWith(r, "...") && StartsWith(content, r[..|r| - 3])
    ensures |r| == 3 + if maxLength >= 0 then (if |content| < maxLength then |content| else maxLength)
                       else (if |content| + maxLength < 0 then 0 else |content| + maxLength)
  {
    PySlice(content, 0, maxLength) + "..."
  }

  /** Content that fits is kept whole, and the ellipsis is appended
      anyway: empty content gives "...". */
  lemma TruncatedFits(content: string, maxLength: int)
    requires |content| <= maxLength
    ensures Truncated(content, maxLength) == content + "..."
  {
    assert content[0..|content|] == content;
  }

  /** Longer content is cut to exactly `max_length` characters. */
  lemma TruncatedCuts(content: string, maxLength: int)
    requires 0 <= maxLength < |content|
    ensures Truncated(content, maxLength) == content[..maxLength] + "..."
  {
  }

  datatype Description = Description(metaDescription: string, snippet: string)

  /** `MetaDescriptionSnippetAgent.execute`; missing `content` is "",
      missing `max_length` is 160. */
  function Describe(content: Option<string>, maxLength: Option<int>): (r: Description)
    ensures r.snippet == SampleSnippet
    ensures EndsWith(r.metaDescription, "...")
    ensures StartsWith(content.GetOr(""), r.metaDescription[..|r.metaDescription| - 3])
    ensures maxLength.None? ==> |r.metaDescription| <= 3 + DefaultMaxLength
  {
    Description(Truncated(content.GetOr(""), maxLength.GetOr(DefaultMaxLength)), SampleSnippet)
  }
}

/** `blog_creation_suite/agents/phase4/meta_snippet_generator_agent.py`:
    the same truncation, reported with a fixed keyword list. */
module MetaSnippetGenerator {
  import opened Wrappers
  import opened PyText
  import MetaDescriptionSnippet

  const FixedKeywords: seq<string> := ["example", "snippet", "meta", "keywords"]

  datatype MetaSnippet = MetaSnippet(metaSnippet: string, keywords: seq<string>)

  /** `MetaSnippetGeneratorAgent.execute`; missing `content` is "",
      missing `max_length` is 160. */
  function Generate(content: Option<string>, maxLength: Option<int>): (r: MetaSnippet)
    ensures |r.keywords| == 4 && r.keywords == FixedKeywords
    ensures EndsWith(r.metaSnippet, "...")
    ensures StartsWith(content.GetOr(""), r.metaSnippet[..|r.metaSnippet| - 3])
    ensures content.GetOr("") == [] ==> r.metaSnippet == "..."
  {
    var m := MetaDescriptionSnippet.Truncated(content.GetOr(""), maxLength.GetOr(MetaDescriptionSnippet.DefaultMaxLength));
    MetaSnippet(m, FixedKeywords)
  }
}

/** `agents/phase4/section_body_writer_agent.py`: a markdown body with
    one "## heading" block per heading, each listing every point. */
module SectionBodyWriter {
  import opened Wrappers
  import opened SeqUtil
  import opened PyText

  /** `f"- {point}\n"` */
  function Bullet(point: string): string {
    "- " + point + "\n"
  }

  /** The bullet lines of all points, in order. */
  function Bullets(points: seq<string>): string {
    Flatten(Map(points, Bullet))
  }

  /** One section: heading line, the bullets, a blank line. */
  function Block(heading: string, points: seq<string>): string {
    "## " + heading + "\n" + Bullets(points) + "\n"
  }

  function BlockOf(points: seq<string>): string -> string {
    h => Block(h, points)
  }

  /** The body before stripping: every heading gets the same bullets. */
  function RawBody(headings: seq<string>, points: seq<string>): string {
    Flatten(Map(headings, BlockOf(points)))
  }

  lemma FlattenMapSnoc<T>(xs: seq<T>, f: T -> string, i: nat)
    requires i < |xs|
    ensures Flatten(Map(xs[..i + 1], f)) == Flatten(Map(xs[..i], f)) + f(xs[i])
  {
    assert Map(xs[..i + 1], f) == Map(xs[..i], f) + [f(xs[i])];
    FlattenAppend(Map(xs[..i], f), [f(xs[i])]);
    FlattenOne(f(xs[i]));
  }

  /** The inner loop: appends the bullet of every point. */
  method AppendBullets(content: string, points: seq<string>) returns (out: string)
    ensures out == content + Bullets(points)
  {
    out := content;
    for j := 0 to |points|
      invariant out == content + Bullets(points[..j])
    {
      FlattenMapSnoc(points, Bullet, j);
      out := out + "- " + points[j] + "\n";
    }
    assert points[..|points|] == points;
  }

  /** `SectionBodyWriterAgent.execute`'s `generated_body`; missing lists
      are empty. */
  method WriteBody(sectionHeadings: Option<seq<string>>, points: Option<seq<string>>)
    returns (body: string)
    ensures body == Strip(RawBody(sectionHeadings.GetOr([]), points.GetOr([])))
  {
    var hs := sectionHeadings.GetOr([]);
    var ps := points.GetOr([]);
    var content := "";
    for i := 0 to |hs|
      invariant content == RawBody(hs[..i], ps)
    {
      var before := content;
      content := content + "## " + hs[i] + "\n";
      content := AppendBullets(content, ps);
      content := content + "\n";
      BlockAfter(before, hs[i], ps);
      FlattenMapSnoc(hs, BlockOf(ps), i);
    }
    assert hs[..|hs|] == hs;
    body := Strip(content);
  }

  lemma BlockAfter(before: string, heading: string, points: seq<string>)
    ensures before + "## " + heading + "\n" + Bullets(points) + "\n" == before + Block(heading, points)
  {
  }

  /** No headings: an empty body, whatever the points. */
  lemma NoHeadingsEmpty(points: seq<string>)
    ensures Strip(RawBody([], points)) == ""
  {
  }

  lemma StripKeepsHead(x: string, y: string, head: string)
    requires x != [] && !IsSpace(x[0]) && !IsSpace(x[|x| - 1]) && StartsWith(x, head)
    ensures StartsWith(Strip(x + y), head)
  {
    StripSplit(x, y);
    assert LStrip(x) == x;
    assert (x + RStrip(y))[..|head|] == x[..|head|];
  }

  lemma RawBodyFirst(headings: seq<string>, points: seq<string>)
    requires headings != []
    ensures RawBody(headings, points) == Block(headings[0], points) + RawBody(headings[1..], points)
  {
    assert Map(headings, BlockOf(points))[1..] == Map(headings[1..], BlockOf(points));
  }

  lemma BulletsFirst(points: seq<string>)
    requires points != []
    ensures Bullets(points) == "- " + points[0] + "\n" + Bullets(points[1..])
  {
    assert Map(points, Bullet)[1..] == Map(points[1..], Bullet);
  }

  /** The stripped body begins with the first heading line intact when
      something non-blank follows it (a point, or a second heading); only
      trailing whitespace is removed. */
  lemma BodyStartsWithHeading(headings: seq<string>, points: seq<string>)
    requires headings != [] && (points != [] || |headings| >= 2)
    ensures StartsWith(Strip(RawBody(headings, points)), "## " + headings[0] + "\n")
  {
    var head := "## " + headings[0] + "\n";
    RawBodyFirst(headings, points);
    if points != [] {
      FirstBlockSplit(headings[0], points);
      var y := FirstBlockTail(headings[0], points) + RawBody(headings[1..], points);
      assert RawBody(headings, points) == (head + "-") + y;
      StripKeepsHead(head + "-", y, head);
    } else {
      SecondHeadingSplit(headings);
      var y := SecondHeadingTail(headings);
      assert RawBody(headings, points) == (head + "\n#") + y;
      StripKeepsHead(head + "\n#", y, head);
    }
  }

  /** What follows "- " of the first bullet in a section with points. */
  function FirstBlockTail(heading: string, points: seq<string>): string
    requires points != []
  {
    " " + points[0] + "\n" + Bullets(points[1..]) + "\n"
  }

  lemma FirstBlockSplit(heading: string, points: seq<string>)
    requires points != []
    ensures Block(heading, points) == "## " + heading + "\n" + "-" + FirstBlockTail(heading, points)
  {
    BulletsFirst(points);
  }

  /** Without points, what follows the first block's "\n#" when a second
      heading exists. */
  function SecondHeadingTail(headings: seq<string>): string
    requires |headings| >= 2
  {
    "# " + headings[1] + "\n" + "\n" + RawBody(headings[2..], [])
  }

  lemma SecondHeadingSplit(headings: seq<string>)
    requires |headings| >= 2
    ensures RawBody(headings, []) == "## " + headings[0] + "\n" + "\n#" + SecondHeadingTail(headings)
  {
    RawBodyFirst(headings, []);
    RawBodyFirst(headings[1..], []);
    assert headings[1..][0] == headings[1] && headings[1..][1..] == headings[2..];
    assert Bullets([]) == "";
  }

  /** `strip()` only trims: the body is the raw text with trailing
      whitespace removed (the raw text never starts with whitespace). */
  lemma BodyTrimsOnlyTheEnd(headings: seq<string>, points: seq<string>)
    ensures var raw := RawBody(headings, points);
      var body := Strip(raw);
      body == raw[..|body|] && forall i :: |body| <= i < |raw| ==> IsSpace(raw[i])
  {
    var raw := RawBody(headings, points);
    if headings != [] {
      var blocks := Map(headings, BlockOf(points));
      assert raw == Block(headings[0], points) + Flatten(blocks[1..]);
      assert raw[0] == '#';
    }
    assert LStrip(raw) == raw;
    RStripPrefix(raw);
  }
}

/** The numbered appendix shared by
    `agents/phase4/data_quote_insertion_agent.py` and
    `agents/phase4/example_story_integration_agent.py`: a header line
    after the content, then one "i. item" line per item. */
module NumberedAppendix {
  import opened PyText

  /** `f"{i}. {item}\n"` */
  function Line(i: nat, item: string): string {
    NatToString(i) + ". " + item + "\n"
  }

  /** Item `i` (from 0) on line number `i + 1`. */
  function Numbered(items: seq<string>): (r: seq<string>)
    ensures |r| == |items|
  {
    seq(|items|, i requires 0 <= i < |items| => Line(i + 1, items[i]))
  }

  /** The text before the final `strip()`. */
  function Raw(content: string, header: string, items: seq<string>): string {
    content + "\n\n" + header + ":\n" + Flatten(Numbered(items))
  }

  lemma NumberedSnoc(items: seq<string>, k: nat)
    requires k < |items|
    ensures Flatten(Numbered(items[..k + 1])) == Flatten(Numbered(items[..k])) + Line(k + 1, items[k])
  {
    assert Numbered(items[..k + 1]) == Numbered(items[..k]) + [Line(k + 1, items[k])];
    FlattenAppend(Numbered(items[..k]), [Line(k + 1, items[k])]);
    FlattenOne(Line(k + 1, items[k]));
  }

  /** The `enumerate(items, 1)` loop, then `strip()`. */
  method Append(content: string, header: string, items: seq<string>) returns (r: string)
    ensures r == Strip(Raw(content, header, items))
  {
    var acc := content + "\n\n" + header + ":\n";
    for k := 0 to |items|
      invariant acc == content + "\n\n" + header + ":\n" + Flatten(Numbered(items[..k]))
    {
      NumberedSnoc(items, k);
      acc := acc + NatToString(k + 1) + ". " + items[k] + "\n";
    }
    assert items[..|items|] == items;
    r := acc;
    r := Strip(r);
  }

  /** The final strip acts on the two ends separately: leading whitespace
      goes from the content, trailing whitespace from the item lines, and
      the header line in between is kept. */
  lemma AppendixStrip(content: string, header: string, items: seq<string>)
    ensures Strip(Raw(content, header, items))
         == LStrip(content + "\n\n" + header + ":") + RStrip("\n" + Flatten(Numbered(items)))
  {
    var x := content + "\n\n" + header + ":";
    assert Raw(content, header, items) == x + ("\n" + Flatten(Numbered(items)));
    StripSplit(x, "\n" + Flatten(Numbered(items)));
  }

  /** No items: the header is still written, and nothing follows it. */
  lemma NoItems(content: string, header: string)
    ensures Strip(Raw(content, header, [])) == LStrip(content + "\n\n" + header + ":")
  {
    AppendixStrip(content, header, []);
    assert Flatten(Numbered([])) == "";
    assert IsSpace('\n') && "\n"[..0] == "";
  }

  /** The line numbers are 1, 2, ... in item order, so no two lines carry
      the same number. */
  lemma NumbersDistinct(items: seq<string>, i: nat, j: nat)
    requires i < j < |items|
    ensures Numbered(items)[i][..|NatToString(i + 1)|] == NatToString(i + 1)
    ensures NatToString(i + 1) != NatToString(j + 1)
  {
    if NatToString(i + 1) == NatToString(j + 1) {
      NatToStringInjective(i + 1, j + 1);
    }
  }
}

/** `agents/phase4/data_quote_insertion_agent.py` */
module DataQuoteInsertion {
  import opened Wrappers
  import opened PyText
  import NumberedAppendix

  const Header: string := "Included Data Points"

  /** `DataQuoteInsertionAgent.execute`'s `augmented_content`; missing
      `content` is "", missing `data_points` is []. */
  method Insert(content: Option<string>, dataPoints: Option<seq<string>>) returns (r: string)
    ensures r == LStrip(content.GetOr("") + "\n\n" + Header + ":")
                 + RStrip("\n" + Flatten(NumberedAppendix.Numbered(dataPoints.GetOr([]))))
  {
    r := NumberedAppendix.Append(content.GetOr(""), Header, dataPoints.GetOr([]));
    NumberedAppendix.AppendixStrip(content.GetOr(""), Header, dataPoints.GetOr([]));
  }
}

/** `agents/phase4/example_story_integration_agent.py` */
module ExampleStoryIntegration {
  import opened Wrappers
  import opened PyText
  import NumberedAppendix

  const Header: string := "Examples"

  /** `ExampleStoryIntegrationAgent.execute`'s `integrated_content`;
      missing `content` is "", missing `examples` is []. */
  method Integrate(content: Option<string>, examples: Option<seq<string>>) returns (r: string)
    ensures r == LStrip(content.GetOr("") + "\n\n" + Header + ":")
                 + RStrip("\n" + Flatten(NumberedAppendix.Numbered(examples.GetOr([]))))
  {
    r := NumberedAppendix.Append(content.GetOr(""), Header, examples.GetOr([]));
    NumberedAppendix.AppendixStrip(content.GetOr(""), Header, examples.GetOr([]));
  }
}

/** `agents/phase4/scaling_cloning_agent.py`: numbered copies of the base
    content. */
module ScalingCloning {
  import opened Wrappers
  import opened PyText

  const DefaultCloneCount: int := 3

  /** `f"{base_content} - Clone #{i}"` */
  function Clone(base: string, i: nat): string {
    base + " - Clone #" + NatToString(i)
  }

  /** `[... for i in range(1, clone_count + 1)]`: none for a count below 1. */
  function Clones(base: string, cloneCount: int): (r: seq<string>)
    ensures |r| == if cloneCount > 0 then cloneCount else 0
  {
    var n := if cloneCount > 0 then cloneCount else 0;
    seq(n, i requires 0 <= i < n => Clone(base, i + 1))
  }

  /** `ScalingCloningAgent.execute`'s `content_clones`; missing
      `base_content` is "", missing `clone_count` is 3. */
  function Scale(baseContent: Option<string>, cloneCount: Option<int>): seq<string> {
    Clones(baseContent.GetOr(""), cloneCount.GetOr(DefaultCloneCount))
  }

  /** Every clone starts with the base content, and no two clones are
      equal: each carries its own number. */
  lemma ClonesDistinct(base: string, cloneCount: int)
    ensures var r := Clones(base, cloneCount);
      && (forall i :: 0 <= i < |r| ==> StartsWith(r[i], base))
      && (forall i, j :: 0 <= i < j < |r| ==> r[i] != r[j])
  {
    var r := Clones(base, cloneCount);
    forall i, j | 0 <= i < j < |r|
      ensures r[i] != r[j]
    {
      var p := base + " - Clone #";
      if r[i] == r[j] {
        assert r[i][|p|..] == NatToString(i + 1);
        assert r[j][|p|..] == NatToString(j + 1);
        NatToStringInjective(i + 1, j + 1);
      }
    }
  }
}
