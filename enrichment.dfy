/** `blog_creation_suite/agents/phase5/stat_injector_agent.py`: the first
    three statistics paired, in order, with three fixed placements. */
module StatInjector {
  import opened Wrappers
  import opened PyText

  const DefaultTopic: string := "Topic"

  datatype Placement = Placement(location: string, reason: string, impactScore: int)

  const Strategy: seq<Placement> := [
    Placement("introduction", "Establish market importance", 94),
    Placement("benefits_section", "Support claims", 91),
    Placement("case_study", "Quantify results", 89)
  ]

  datatype Injection = Injection(suggestedLocation: string, statistic: string, injectionText: string)

  /** The sentence announcing where `stat` goes. */
  function InjectionText(stat: string, topic: string): string {
    "Inserting stat '" + stat + "' after the paragraph that introduces " + topic + " benefits."
  }

  /** The injection made for statistic `i`. */
  function InjectionAt(stats: seq<string>, topic: string, i: nat): Injection
    requires i < |stats| && i < |Strategy|
  {
    Injection(Strategy[i].location, stats[i], InjectionText(stats[i], topic))
  }

  /** `StatInjectorAgent.execute`'s `injections`: the loop over
      `available_stats[:3]`; missing `topic` is "Topic", missing
      `available_stats` is []. */
  method Inject(topic: Option<string>, availableStats: Option<seq<string>>) returns (injections: seq<Injection>)
    ensures var stats := availableStats.GetOr([]);
      && |injections| == (if |stats| < 3 then |stats| else 3)
      && forall i :: 0 <= i < |injections| ==> injections[i] == InjectionAt(stats, topic.GetOr(DefaultTopic), i)
  {
    var t := topic.GetOr(DefaultTopic);
    var stats := availableStats.GetOr([]);
    var first := PySlice(stats, 0, 3);
    assert first == stats[..|first|];
    injections := [];
    for i := 0 to |first|
      invariant |injections| == i
      invariant forall k :: 0 <= k < i ==> injections[k] == InjectionAt(stats, t, k)
    {
      injections := injections + [Injection(Strategy[i].location, first[i], InjectionText(first[i], t))];
    }
  }

  /** The placements are used in their fixed order and never twice, and
      each injection text names both its statistic and the topic. */
  lemma InjectionsPlaced(stats: seq<string>, topic: string, i: nat, j: nat)
    requires i < j < |stats| && j < |Strategy|
    ensures InjectionAt(stats, topic, i).suggestedLocation != InjectionAt(stats, topic, j).suggestedLocation
    ensures Contains(InjectionAt(stats, topic, i).injectionText, stats[i])
    ensures Contains(InjectionAt(stats, topic, i).injectionText, topic)
  {
    var pre := "Inserting stat '";
    var mid := "' after the paragraph that introduces ";
    ContainsMiddle(pre, stats[i], mid + topic + " benefits.");
    assert InjectionText(stats[i], topic) == pre + stats[i] + (mid + topic + " benefits.");
    ContainsMiddle(pre + stats[i] + mid, topic, " benefits.");
  }
}

/** `blog_creation_suite/agents/phase5/image_prompting_agent.py`: one
    prompt per (style, aspect ratio) pair, one alt text per style. */
module ImagePrompting {
  import opened Wrappers
  import opened PyText

  const DefaultTopic: string := "Topic"
  const DefaultStyles: seq<string> := ["photorealistic", "editorial", "flat-illustration"]
  const DefaultRatios: seq<string> := ["16:9", "4:3"]

  const StyleWords: string := " style, composition focused on people and process, aspect ratio "
  const Finish: string := ", high resolution, clean background"

  function Prompt(topic: string, style: string, ratio: string): string {
    topic + " in " + style + StyleWords + ratio + Finish
  }

  /** The prompts for one style, one per ratio in order. */
  function Row(topic: string, style: string, ratios: seq<string>): (r: seq<string>)
    ensures |r| == |ratios|
  {
    seq(|ratios|, j requires 0 <= j < |ratios| => Prompt(topic, style, ratios[j]))
  }

  /** All prompts, style by style. */
  function Prompts(topic: string, styles: seq<string>, ratios: seq<string>): seq<string>
    decreases |styles|
  {
    if styles == [] then []
    else Prompts(topic, styles[..|styles| - 1], ratios) + Row(topic, styles[|styles| - 1], ratios)
  }

  function AltText(topic: string, style: string): string {
    topic + " related image showing people and process (" + style + ")"
  }

  /** `[f"..." for s in styles]` */
  function AltTexts(topic: string, styles: seq<string>): (r: seq<string>)
    ensures |r| == |styles|
    ensures forall i :: 0 <= i < |styles| ==> r[i] == AltText(topic, styles[i])
  {
    seq(|styles|, i requires 0 <= i < |styles| => AltText(topic, styles[i]))
  }

  /** The inner loop: one prompt per ratio for a fixed style. */
  method AppendRow(prompts: seq<string>, topic: string, style: string, ratios: seq<string>) returns (out: seq<string>)
    ensures out == prompts + Row(topic, style, ratios)
  {
    out := prompts;
    for j := 0 to |ratios|
      invariant out == prompts + Row(topic, style, ratios[..j])
    {
      assert Row(topic, style, ratios[..j + 1]) == Row(topic, style, ratios[..j]) + [Prompt(topic, style, ratios[j])];
      out := out + [Prompt(topic, style, ratios[j])];
    }
    assert ratios[..|ratios|] == ratios;
  }

  /** The nested loops of `ImagePromptingAgent.execute`; missing inputs
      take their defaults. */
  method BuildPrompts(topic: Option<string>, styles: Option<seq<string>>, aspectRatios: Option<seq<string>>)
    returns (prompts: seq<string>, altTexts: seq<string>)
    ensures prompts == Prompts(topic.GetOr(DefaultTopic), styles.GetOr(DefaultStyles), aspectRatios.GetOr(DefaultRatios))
    ensures altTexts == AltTexts(topic.GetOr(DefaultTopic), styles.GetOr(DefaultStyles))
  {
    var t := topic.GetOr(DefaultTopic);
    var ss := styles.GetOr(DefaultStyles);
    var rs := aspectRatios.GetOr(DefaultRatios);
    prompts := [];
    for i := 0 to |ss|
      invariant prompts == Prompts(t, ss[..i], rs)
    {
      PromptsSnoc(t, ss, rs, i);
      prompts := AppendRow(prompts, t, ss[i], rs);
    }
    assert ss[..|ss|] == ss;
    altTexts := AltTexts(t, ss);
  }

  lemma {:induction false} MulStep(i: nat, n: nat, m: nat)
    requires i < n
    ensures i * m + m <= n * m
    decreases n
  {
    if i < n - 1 {
      MulStep(i, n - 1, m);
      assert n * m == (n - 1) * m + m;
    } else {
      assert n * m == i * m + m;
    }
  }

  lemma PromptsSnoc(topic: string, styles: seq<string>, ratios: seq<string>, i: nat)
    requires i < |styles|
    ensures Prompts(topic, styles[..i + 1], ratios) == Prompts(topic, styles[..i], ratios) + Row(topic, styles[i], ratios)
  {
    assert styles[..i + 1][..i] == styles[..i];
  }

  lemma {:induction false} PromptsLength(topic: string, styles: seq<string>, ratios: seq<string>)
    ensures |Prompts(topic, styles, ratios)| == |styles| * |ratios|
    decreases |styles|
  {
    if styles != [] {
      var n, m := |styles|, |ratios|;
      PromptsLength(topic, styles[..n - 1], ratios);
      assert n * m == (n - 1) * m + m;
    }
  }

  lemma {:induction false} PromptAt(topic: string, styles: seq<string>, ratios: seq<string>, i: nat, j: nat)
    requires i < |styles| && j < |ratios|
    ensures i * |ratios| + j < |Prompts(topic, styles, ratios)|
            && Prompts(topic, styles, ratios)[i * |ratios| + j] == Prompt(topic, styles[i], ratios[j])
    decreases |styles|
  {
    var n, m := |styles|, |ratios|;
    var init := styles[..n - 1];
    PromptsLength(topic, init, ratios);
    PromptsLength(topic, styles, ratios);
    MulStep(i, n, m);
    if i < n - 1 {
      PromptAt(topic, init, ratios, i, j);
      MulStep(i, n - 1, m);
    } else {
      assert i * m == (n - 1) * m;
    }
  }

  /** Prompt `i * |ratios| + j` exists and pairs style `i` with ratio `j`. */
  predicate PromptIsAt(topic: string, styles: seq<string>, ratios: seq<string>, i: nat, j: nat)
    requires i < |styles| && j < |ratios|
  {
    i * |ratios| + j < |Prompts(topic, styles, ratios)|
    && Prompts(topic, styles, ratios)[i * |ratios| + j] == Prompt(topic, styles[i], ratios[j])
  }

  /** Style-major order: prompt `i * |ratios| + j` pairs style `i` with
      ratio `j`, for every pair. */
  lemma PromptsIndex(topic: string, styles: seq<string>, ratios: seq<string>)
    ensures forall i: nat, j: nat :: i < |styles| && j < |ratios| ==> PromptIsAt(topic, styles, ratios, i, j)
  {
    forall i: nat, j: nat | i < |styles| && j < |ratios|
      ensures PromptIsAt(topic, styles, ratios, i, j)
    {
      PromptAt(topic, styles, ratios, i, j);
    }
  }

  /** Each prompt names its topic, its style and its ratio. */
  lemma PromptMentions(topic: string, style: string, ratio: string)
    ensures Contains(Prompt(topic, style, ratio), topic)
    ensures Contains(Prompt(topic, style, ratio), style)
    ensures Contains(Prompt(topic, style, ratio), ratio)
  {
    var head := topic + " in ";
    var p := Prompt(topic, style, ratio);
    assert p == head + style + StyleWords + ratio + Finish;
    assert p[0..|topic|] == topic;
    ContainsAt(p, topic, 0);
    ContainsMiddle(head, style, StyleWords + ratio + Finish);
    assert p == head + style + (StyleWords + ratio + Finish);
    ContainsMiddle(head + style + StyleWords, ratio, Finish);
  }

  /** The defaults give 3 styles × 2 ratios = 6 prompts and 3 alt texts. */
  lemma DefaultCounts(topic: string)
    ensures |Prompts(topic, DefaultStyles, DefaultRatios)| == 6
    ensures |AltTexts(topic, DefaultStyles)| == 3
  {
    PromptsLength(topic, DefaultStyles, DefaultRatios);
  }
}

/** `blog_creation_suite/agents/phase5/multimedia_embed_agent.py`: one
    embed per media URL given, in the order video, tweet, slides. */
module MultimediaEmbed {
  import opened Wrappers
  import opened SeqUtil
  import opened PyText

  datatype Embed = Embed(kind: string, html: string, recommendation: string)

  const VideoOpen: string := "<div class=\"video-embed\"><iframe src=\""
  const VideoClose: string := "\" frameborder=\"0\" allowfullscreen></iframe></div>"
  const VideoAdvice: string := "Make iframe responsive with CSS wrappers"
  const TweetOpen: string := "<blockquote class=\"twitter-tweet\"><a href=\""
  const TweetClose: string := "\"></a></blockquote>"
  const TweetAdvice: string := "Load Twitter embed script async and lazy-load when visible"
  const SlidesOpen: string := "<iframe src=\""
  const SlidesClose: string := "\" class=\"slides-embed\" frameborder=\"0\"></iframe>"
  const SlidesAdvice: string := "Limit height and lazy-load when in viewport"

  function VideoEmbed(url: string): Embed { Embed("video", VideoOpen + url + VideoClose, VideoAdvice) }
  function TweetEmbed(url: string): Embed { Embed("tweet", TweetOpen + url + TweetClose, TweetAdvice) }
  function SlidesEmbed(url: string): Embed { Embed("slides", SlidesOpen + url + SlidesClose, SlidesAdvice) }

  /** A media kind with the URL given for it, if any. */
  datatype Request = Request(kind: string, url: Option<string>)

  predicate Given(r: Request) { r.url.Some? }

  function EmbedFor(r: Request): Embed {
    var u := r.url.GetOr("");
    if r.kind == "video" then VideoEmbed(u) else if r.kind == "tweet" then TweetEmbed(u) else SlidesEmbed(u)
  }

  /** The three media kinds in their fixed order. */
  function Requests(video: Option<string>, tweet: Option<string>, slides: Option<string>): seq<Request> {
    [Request("video", video), Request("tweet", tweet), Request("slides", slides)]
  }

  /** The embeds expected: the given kinds, in the fixed order. */
  function Expected(video: Option<string>, tweet: Option<string>, slides: Option<string>): seq<Embed> {
    Map(Filter(Requests(video, tweet, slides), Given), EmbedFor)
  }

  /** The requests kept for one kind: itself when its URL was given. */
  function Chosen(r: Request): seq<Request> {
    if Given(r) then [r] else []
  }

  lemma FilterOne(r: Request)
    ensures Filter([r], Given) == Chosen(r)
  {
    assert [r][1..] == [];
  }

  lemma MapChosen(r: Request)
    ensures Map(Chosen(r), EmbedFor) == if Given(r) then [EmbedFor(r)] else []
  {
  }

  lemma MapConcat3(a: seq<Request>, b: seq<Request>, c: seq<Request>)
    ensures Map(a + b + c, EmbedFor) == Map(a, EmbedFor) + Map(b, EmbedFor) + Map(c, EmbedFor)
  {
  }

  /** The given requests, in the fixed order. */
  lemma FilteredRequests(video: Option<string>, tweet: Option<string>, slides: Option<string>)
    ensures Filter(Requests(video, tweet, slides), Given)
         == Chosen(Request("video", video)) + Chosen(Request("tweet", tweet)) + Chosen(Request("slides", slides))
  {
    var rs := Requests(video, tweet, slides);
    var a, b, c := rs[0], rs[1], rs[2];
    assert rs == [a] + [b] + [c];
    FilterConcat([a] + [b], [c], Given);
    FilterConcat([a], [b], Given);
    FilterOne(a);
    FilterOne(b);
    FilterOne(c);
  }

  lemma ExpectedUnfold(video: Option<string>, tweet: Option<string>, slides: Option<string>)
    ensures Expected(video, tweet, slides)
         == (if video.Some? then [VideoEmbed(video.value)] else [])
            + (if tweet.Some? then [TweetEmbed(tweet.value)] else [])
            + (if slides.Some? then [SlidesEmbed(slides.value)] else [])
  {
    var a, b, c := Request("video", video), Request("tweet", tweet), Request("slides", slides);
    FilteredRequests(video, tweet, slides);
    MapConcat3(Chosen(a), Chosen(b), Chosen(c));
    MapChosen(a);
    MapChosen(b);
    MapChosen(c);
  }

  /** `MultimediaEmbedAgent.execute`'s `embeds`: a `*_url` key that is
      present (whatever its value) adds its embed. */
  method CollectEmbeds(videoUrl: Option<string>, tweetUrl: Option<string>, slidesUrl: Option<string>)
    returns (embeds: seq<Embed>)
    ensures embeds == Expected(videoUrl, tweetUrl, slidesUrl)
  {
    embeds := [];
    if videoUrl.Some? {
      embeds := embeds + [VideoEmbed(videoUrl.value)];
    }
    if tweetUrl.Some? {
      embeds := embeds + [TweetEmbed(tweetUrl.value)];
    }
    if slidesUrl.Some? {
      embeds := embeds + [SlidesEmbed(slidesUrl.value)];
    }
    ExpectedUnfold(videoUrl, tweetUrl, slidesUrl);
  }

  function Count(b: bool): nat { if b then 1 else 0 }

  /** One embed per given URL, so at most three, and a kind appears
      exactly when its URL was given. */
  lemma ExpectedShape(video: Option<string>, tweet: Option<string>, slides: Option<string>)
    ensures var e := Expected(video, tweet, slides);
      && |e| == Count(video.Some?) + Count(tweet.Some?) + Count(slides.Some?) <= 3
      && ((exists i :: 0 <= i < |e| && e[i].kind == "video") <==> video.Some?)
      && ((exists i :: 0 <= i < |e| && e[i].kind == "tweet") <==> tweet.Some?)
      && ((exists i :: 0 <= i < |e| && e[i].kind == "slides") <==> slides.Some?)
  {
    ExpectedUnfold(video, tweet, slides);
    var e := Expected(video, tweet, slides);
    var A: seq<Embed> := if video.Some? then [VideoEmbed(video.value)] else [];
    var B: seq<Embed> := if tweet.Some? then [TweetEmbed(tweet.value)] else [];
    var C: seq<Embed> := if slides.Some? then [SlidesEmbed(slides.value)] else [];
    assert e == A + B + C;
    if tweet.Some? {
      assert e[|A|] == TweetEmbed(tweet.value);
    }
    if slides.Some? {
      assert e[|A| + |B|] == SlidesEmbed(slides.value);
    }
    forall i | 0 <= i < |e|
      ensures e[i].kind == "video" ==> video.Some?
      ensures e[i].kind == "tweet" ==> tweet.Some?
      ensures e[i].kind == "slides" ==> slides.Some?
    {
      assert e[i] in A || e[i] in B || e[i] in C;
    }
  }

  /** Each embed is the one for a kind whose URL was given, and its html
      carries that URL. */
  lemma ExpectedCarriesUrls(video: Option<string>, tweet: Option<string>, slides: Option<string>)
    ensures var e := Expected(video, tweet, slides);
      forall i :: 0 <= i < |e| ==> exists r :: r in Requests(video, tweet, slides) && r.url.Some?
                                            && e[i] == EmbedFor(r) && Contains(e[i].html, r.url.value)
  {
    var e := Expected(video, tweet, slides);
    var rs := Requests(video, tweet, slides);
    var f := Filter(rs, Given);
    forall i | 0 <= i < |e|
      ensures exists r :: r in rs && r.url.Some? && e[i] == EmbedFor(r) && Contains(e[i].html, r.url.value)
    {
      var r := f[i];
      assert r in rs && Given(r);
      EmbedMentions(r);
    }
  }

  lemma EmbedMentions(r: Request)
    requires r.url.Some?
    ensures Contains(EmbedFor(r).html, r.url.value)
  {
    var u := r.url.value;
    if r.kind == "video" {
      ContainsMiddle(VideoOpen, u, VideoClose);
    } else if r.kind == "tweet" {
      ContainsMiddle(TweetOpen, u, TweetClose);
    } else {
      ContainsMiddle(SlidesOpen, u, SlidesClose);
    }
  }
}
