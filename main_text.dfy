/** The text helpers of the blog service (`main.py`): the PDF-safety filter,
    separator-line removal, markdown-delimiter removal, image-caption
    sanitising, the reading-time estimate and the caption fallback used when
    no language model is available. */
module TextHelpers {
  import opened SeqUtil
  import opened PyText
  import opened Wrappers

  predicate NonAscii(c: char) { !IsAscii(c) }

  /** `clean_text`: every maximal run of non-ASCII characters becomes one
      space. */
  function CleanText(s: string): (r: string)
    ensures |r| <= |s|
    ensures forall i :: 0 <= i < |r| ==> IsAscii(r[i])
    decreases |s|
  {
    if s == [] then []
    else if IsAscii(s[0]) then [s[0]] + CleanText(s[1..])
    else
      var n := RunLength(s, NonAscii);
      " " + CleanText(s[n..])
  }

  /** ASCII text passes through `clean_text` unchanged. */
  lemma {:induction false} CleanTextAscii(s: string)
    requires forall i :: 0 <= i < |s| ==> IsAscii(s[i])
    ensures CleanText(s) == s
  {
    if s != [] {
      CleanTextAscii(s[1..]);
    }
  }

  /** `clean_text` is idempotent. */
  lemma CleanTextIdempotent(s: string)
    ensures CleanText(CleanText(s)) == CleanText(s)
  {
    CleanTextAscii(CleanText(s));
  }

  /** A whole run of non-ASCII characters, however long, becomes a single space. */
  lemma CleanTextRun(run: string, rest: string)
    requires run != [] && forall i :: 0 <= i < |run| ==> NonAscii(run[i])
    requires rest == [] || IsAscii(rest[0])
    ensures CleanText(run + rest) == " " + CleanText(rest)
  {
    var s := run + rest;
    RunLengthExact(s, NonAscii, |run|);
    assert s[|run|..] == rest;
  }

  predicate AsciiText(c: char) { IsAscii(c) && !IsSpace(c) }

  /** The visible ASCII characters survive, in their order, and nothing
      else visible appears. */
  lemma {:induction false} CleanTextKeepsAscii(s: string)
    ensures Filter(CleanText(s), AsciiText) == Filter(s, AsciiText)
    decreases |s|
  {
    if s != [] {
      if IsAscii(s[0]) {
        CleanTextKeepsAscii(s[1..]);
        FilterConcat([s[0]], CleanText(s[1..]), AsciiText);
      } else {
        var n := RunLength(s, NonAscii);
        CleanTextKeepsAscii(s[n..]);
        FilterConcat(" ", CleanText(s[n..]), AsciiText);
        assert s == s[..n] + s[n..];
        FilterConcat(s[..n], s[n..], AsciiText);
        FilterNone(s[..n], AsciiText);
      }
    }
  }

  // ---------------------------------------------------------------------
  // clean_separator_lines

  predicate SeparatorChar(c: char) { c == '=' || c == '-' || c == '_' || c == '*' || c == '#' }

  /** A line whose stripped form is non-empty and made only of `=-_*#`. */
  predicate IsSeparatorLine(line: string) {
    var st := Strip(line);
    st != [] && forall i :: 0 <= i < |st| ==> SeparatorChar(st[i])
  }

  predicate KeepLine(line: string) { !IsSeparatorLine(line) }

  /** The lines `clean_separator_lines` keeps. */
  function KeptLines(text: string): (r: seq<string>)
    ensures IsSubsequence(r, SplitOn(text, '\n'))
    ensures forall line :: line in SplitOn(text, '\n') ==> (line in r <==> !IsSeparatorLine(line))
  {
    FilterIsSubsequence(SplitOn(text, '\n'), KeepLine);
    Filter(SplitOn(text, '\n'), KeepLine)
  }

  /** `clean_separator_lines`: split on newlines, skip separator lines,
      join the rest with newlines. */
  method CleanSeparatorLines(text: string) returns (r: string)
    ensures r == Join("\n", KeptLines(text))
  {
    var lines := SplitOn(text, '\n');
    var cleaned: seq<string> := [];
    var i := 0;
    while i < |lines|
      invariant 0 <= i <= |lines|
      invariant cleaned == Filter(lines[..i], KeepLine)
    {
      FilterAppend(lines[..i], lines[i], KeepLine);
      assert lines[..i + 1] == lines[..i] + [lines[i]];
      if !IsSeparatorLine(lines[i]) {
        cleaned := cleaned + [lines[i]];
      }
      i := i + 1;
    }
    assert lines[..i] == lines;
    r := Join("\n", cleaned);
  }

  /** The result's lines are exactly the kept lines, verbatim and in order
      (an empty result still reads as one empty line). */
  lemma CleanSeparatorLinesLines(text: string)
    ensures SplitOn(Join("\n", KeptLines(text)), '\n') == if KeptLines(text) == [] then [""] else KeptLines(text)
  {
    var kept := KeptLines(text);
    if kept != [] {
      var lines := SplitOn(text, '\n');
      SplitOnPiecesClean(text, '\n');
      forall i | 0 <= i < |kept| ensures '\n' !in kept[i] {
        assert kept[i] in kept;
        var k :| 0 <= k < |lines| && lines[k] == kept[i];
      }
      SplitJoin(kept, '\n');
    }
  }

  /** Cleaning twice is cleaning once. */
  lemma CleanSeparatorLinesIdempotent(text: string)
    ensures Join("\n", KeptLines(Join("\n", KeptLines(text)))) == Join("\n", KeptLines(text))
  {
    var kept := KeptLines(text);
    CleanSeparatorLinesLines(text);
    if kept == [] {
      assert !IsSeparatorLine("");
    } else {
      FilterIdempotent(SplitOn(text, '\n'), KeepLine);
    }
  }

  /** A spaced-out rule survives, because the space is not a separator
      character. */
  lemma SpacedDashesSurvive()
    ensures !IsSeparatorLine("- - -")
  {
    assert Strip("- - -") == "- - -";
    assert !SeparatorChar("- - -"[1]);
  }

  // ---------------------------------------------------------------------
  // clean_markdown_formatting

  /** Offset of the `**` that closes a bold span: the earliest one, provided
      no newline comes first (`.` does not match a newline). */
  function BoldClose(t: string): (r: Option<nat>)
    ensures r.Some? ==> r.value + 2 <= |t| && t[r.value] == '*' && t[r.value + 1] == '*'
  {
    if |t| < 2 then None
    else if t[0] == '*' && t[1] == '*' then Some(0)
    else if t[0] == '\n' then None
    else
      match BoldClose(t[1..])
      case None => None
      case Some(j) => Some(j + 1)
  }

  /** `re.sub(r"\*\*(.*?)\*\*", r"\1", s)` */
  function Bold(s: string): (r: string)
    ensures |r| <= |s|
    decreases |s|
  {
    if s == [] then []
    else if |s| >= 2 && s[0] == '*' && s[1] == '*' && BoldClose(s[2..]).Some? then
      var j := BoldClose(s[2..]).value;
      s[2..2 + j] + Bold(s[2 + j + 2..])
    else [s[0]] + Bold(s[1..])
  }

  /** Index of the first `*` in `t`. */
  function FindStar(t: string): (r: Option<nat>)
    ensures r.Some? ==> r.value < |t| && t[r.value] == '*' && forall i :: 0 <= i < r.value ==> t[i] != '*'
    ensures r.None? ==> forall i :: 0 <= i < |t| ==> t[i] != '*'
  {
    if t == [] then None
    else if t[0] == '*' then Some(0)
    else
      match FindStar(t[1..])
      case None => None
      case Some(j) => Some(j + 1)
  }

  /** Where a single-star span opening at `s[0]` closes: the first following
      star, which must not itself be followed by a star. */
  function ItalicClose(s: string): (r: Option<nat>)
    requires |s| >= 2
    ensures r.Some? ==> 2 <= r.value < |s| && s[r.value] == '*'
  {
    match FindStar(s[1..])
    case None => None
    case Some(k) =>
      if k >= 1 && (k + 2 == |s| || s[k + 2] != '*') then Some(k + 1) else None
  }

  predicate ItalicOpens(s: string, prevStar: bool) {
    !prevStar && |s| >= 2 && s[0] == '*' && s[1] != '*' && ItalicClose(s).Some?
  }

  /** `re.sub(r"(?<!\*)\*(?!\*)([^*]+?)\*(?!\*)", r"\1", s)`; `prevStar` says
      whether the character before `s` in the original string is a star. */
  function Italic(s: string, prevStar: bool): (r: string)
    ensures |r| <= |s|
    decreases |s|
  {
    if s == [] then []
    else if ItalicOpens(s, prevStar) then
      var j := ItalicClose(s).value;
      s[1..j] + Italic(s[j + 1..], true)
    else [s[0]] + Italic(s[1..], s[0] == '*')
  }

  predicate IsHash(c: char) { c == '#' }

  /** How much `re.sub(r"^\s*#{1,6}\s*", "", s)` cuts from the front:
      the leading whitespace, up to six hashes and the whitespace after
      them; nothing when no hash follows the leading whitespace. Without
      MULTILINE, `^` anchors at the start of the whole string only. */
  function MarkerLength(s: string): (n: nat)
    ensures n <= |s|
  {
    var w := RunLength(s, IsSpace);
    if w < |s| && s[w] == '#' then
      var run := RunLength(s[w..], IsHash);
      var h := if run < 6 then run else 6;
      w + h + RunLength(s[w + h..], IsSpace)
    else 0
  }

  function StripHeadingMarker(s: string): string {
    s[MarkerLength(s)..]
  }

  /** `clean_markdown_formatting` */
  function CleanMarkdownFormatting(s: string): string {
    StripHeadingMarker(Italic(Bold(s), false))
  }

  predicate NotStar(c: char) { c != '*' }

  /** Bold removal deletes stars only: every other character survives in order. */
  lemma {:induction false} BoldKeepsText(s: string)
    ensures Filter(Bold(s), NotStar) == Filter(s, NotStar)
    decreases |s|
  {
    if s != [] {
      if |s| >= 2 && s[0] == '*' && s[1] == '*' && BoldClose(s[2..]).Some? {
        var j := BoldClose(s[2..]).value;
        BoldStep(s, j);
        assert s[2..][j] == s[2 + j] && s[2..][j + 1] == s[2 + j + 1];
        BoldFilterStep(s, j);
        BoldKeepsText(s[2 + j + 2..]);
        FilterConcat(s[2..2 + j], Bold(s[2 + j + 2..]), NotStar);
      } else {
        BoldKeepsText(s[1..]);
        FilterConcat([s[0]], Bold(s[1..]), NotStar);
      }
    }
  }

  /** A closed bold span at the start: its inner text, then the rest. */
  lemma BoldStep(s: string, j: nat)
    requires |s| >= 2 && s[0] == '*' && s[1] == '*' && BoldClose(s[2..]) == Some(j)
    ensures 2 + j + 2 <= |s| && Bold(s) == s[2..2 + j] + Bold(s[2 + j + 2..])
  {
  }

  /** The span's delimiters are stars, so the filter loses nothing else. */
  lemma BoldFilterStep(s: string, j: nat)
    requires 2 + j + 2 <= |s| && s[0] == '*' && s[1] == '*' && s[2 + j] == '*' && s[2 + j + 1] == '*'
    ensures Filter(s, NotStar) == Filter(s[2..2 + j], NotStar) + Filter(s[2 + j + 2..], NotStar)
  {
    var close := s[2 + j..];
    DropTwoStars(s);
    assert s[2..] == s[2..2 + j] + close;
    FilterConcat(s[2..2 + j], close, NotStar);
    DropTwoStars(close);
    assert close[2..] == s[2 + j + 2..];
  }

  /** Two stars in front change nothing under the filter. */
  lemma DropTwoStars(t: string)
    requires |t| >= 2 && t[0] == '*' && t[1] == '*'
    ensures Filter(t, NotStar) == Filter(t[2..], NotStar)
  {
    assert t == ['*'] + t[1..];
    assert t[1..] == ['*'] + t[2..];
    DropLeadingStar(t[1..]);
    DropLeadingStar(t[2..]);
  }

  /** A star in front changes nothing under the filter. */
  lemma DropLeadingStar(rest: string)
    ensures Filter(['*'] + rest, NotStar) == Filter(rest, NotStar)
  {
    assert (['*'] + rest)[1..] == rest;
  }

  /** Italic removal deletes stars only: every other character survives in order. */
  lemma {:induction false} ItalicKeepsText(s: string, prevStar: bool)
    ensures Filter(Italic(s, prevStar), NotStar) == Filter(s, NotStar)
    decreases |s|
  {
    if s != [] {
      if ItalicOpens(s, prevStar) {
        var j := ItalicClose(s).value;
        ItalicStep(s, prevStar, j);
        ItalicFilterStep(s, j);
        ItalicKeepsText(s[j + 1..], true);
        FilterConcat(s[1..j], Italic(s[j + 1..], true), NotStar);
      } else {
        ItalicKeepsText(s[1..], s[0] == '*');
        FilterConcat([s[0]], Italic(s[1..], s[0] == '*'), NotStar);
      }
    }
  }

  /** A closed italic span at the start: its inner text, then the rest. */
  lemma ItalicStep(s: string, prevStar: bool, j: nat)
    requires ItalicOpens(s, prevStar) && ItalicClose(s) == Some(j)
    ensures 1 <= j < |s| && Italic(s, prevStar) == s[1..j] + Italic(s[j + 1..], true)
  {
  }

  lemma ItalicFilterStep(s: string, j: nat)
    requires 1 <= j < |s| && s[0] == '*' && s[j] == '*'
    ensures Filter(s, NotStar) == Filter(s[1..j], NotStar) + Filter(s[j + 1..], NotStar)
  {
    var inner, rest := s[1..j], s[j + 1..];
    var tail := ['*'] + rest;
    assert s[j..] == tail;
    assert s[1..] == inner + tail;
    assert s == ['*'] + (inner + tail);
    DropLeadingStar(inner + tail);
    FilterConcat(inner, tail, NotStar);
    DropLeadingStar(rest);
  }

  /** A bold span on one line loses exactly its delimiters. */
  lemma BoldSpan(t: string)
    requires forall i :: 0 <= i < |t| ==> t[i] != '*' && t[i] != '\n'
    ensures Bold("**" + t + "**") == t
  {
    var s := "**" + t + "**";
    BoldSpanParts(t);
    BoldStep(s, |t|);
  }

  /** The pieces of `"**" + t + "**"` that a bold step looks at. */
  lemma BoldSpanParts(t: string)
    requires forall i :: 0 <= i < |t| ==> t[i] != '*' && t[i] != '\n'
    ensures var s := "**" + t + "**";
      |s| == |t| + 4 && s[0] == '*' && s[1] == '*' && BoldClose(s[2..]) == Some(|t|)
      && s[2..2 + |t|] == t && s[2 + |t| + 2..] == []
  {
    var s := "**" + t + "**";
    assert s[2..] == t + "**";
    BoldCloseAfter(t);
  }

  lemma {:induction false} BoldCloseAfter(t: string)
    requires forall i :: 0 <= i < |t| ==> t[i] != '*' && t[i] != '\n'
    ensures BoldClose(t + "**") == Some(|t|)
  {
    if t != [] {
      assert (t + "**")[1..] == t[1..] + "**";
      BoldCloseAfter(t[1..]);
    } else {
      assert t + "**" == "**";
    }
  }

  /** An italic span loses exactly its delimiters. */
  lemma ItalicSpan(t: string)
    requires t != [] && forall i :: 0 <= i < |t| ==> t[i] != '*'
    ensures Italic("*" + t + "*", false) == t
  {
    var s := "*" + t + "*";
    ItalicSpanParts(t);
    ItalicStep(s, false, |t| + 1);
    assert s[|t| + 2..] == [];
    assert Italic(s[|t| + 2..], true) == [];
    assert Italic(s, false) == s[1..|t| + 1];
  }

  /** The pieces of `"*" + t + "*"` that an italic step looks at. */
  lemma ItalicSpanParts(t: string)
    requires t != [] && forall i :: 0 <= i < |t| ==> t[i] != '*'
    ensures var s := "*" + t + "*";
      ItalicOpens(s, false) && ItalicClose(s) == Some(|t| + 1)
      && s[1..|t| + 1] == t && s[|t| + 2..] == []
  {
    var s := "*" + t + "*";
    FindStarAfter(t);
    assert s[1..] == t + "*";
  }

  lemma {:induction false} FindStarAfter(t: string)
    requires forall i :: 0 <= i < |t| ==> t[i] != '*'
    ensures FindStar(t + "*") == Some(|t|)
  {
    if t != [] {
      assert (t + "*")[1..] == t[1..] + "*";
      FindStarAfter(t[1..]);
    } else {
      assert t + "*" == "*";
    }
  }

  /** The marker is cut from the front: what is left is a suffix, and
      everything removed is whitespace or `#`. */
  lemma StripHeadingMarkerSuffix(s: string)
    ensures var r := StripHeadingMarker(s);
      |r| <= |s| && r == s[|s| - |r|..] && forall i :: 0 <= i < |s| - |r| ==> IsSpace(s[i]) || s[i] == '#'
  {
    var w := RunLength(s, IsSpace);
    if w < |s| && s[w] == '#' {
      var run := RunLength(s[w..], IsHash);
      var h := if run < 6 then run else 6;
      var rest := s[w + h..];
      var cut := MarkerLength(s);
      assert cut == w + h + RunLength(rest, IsSpace);
      forall i | 0 <= i < cut
        ensures IsSpace(s[i]) || s[i] == '#'
      {
        if i >= w + h {
          assert s[i] == rest[i - w - h];
        } else if i >= w {
          assert s[i] == s[w..][i - w];
        }
      }
    }
  }

  /** A heading marker later in the text is not touched: only the start of
      the whole string is anchored. */
  lemma HeadingMarkerOnlyAtStart(s: string)
    requires s != [] && !IsSpace(s[0]) && s[0] != '#'
    ensures StripHeadingMarker(s) == s
  {
  }

  /** Up to six leading hashes and the surrounding whitespace go. */
  lemma HeadingMarkerRemoved(t: string)
    requires t != [] && !IsSpace(t[0]) && t[0] != '#'
    ensures StripHeadingMarker("## " + t) == t
  {
    var s := "## " + t;
    RunLengthExact(s, IsSpace, 0);
    RunLengthExact(s, IsHash, 2);
    assert s[2..] == " " + t;
    RunLengthExact(s[2..], IsSpace, 1);
    assert s[2..][1..] == t;
  }

  /** A visible character other than `*` and `#`. */
  predicate Plain(c: char) { c != '*' && c != '#' && !IsSpace(c) }

  /** `clean_markdown_formatting` keeps the inner text: it only ever deletes
      stars, hashes and whitespace, so every other character survives in
      order. */
  lemma CleanMarkdownKeepsText(s: string)
    ensures Filter(CleanMarkdownFormatting(s), Plain) == Filter(s, Plain)
  {
    var it := Italic(Bold(s), false);
    StarsKeepPlain(s);
    MarkerKeepsPlain(it);
  }

  /** Removing the emphasis delimiters keeps every plain character. */
  lemma StarsKeepPlain(s: string)
    ensures Filter(Italic(Bold(s), false), Plain) == Filter(s, Plain)
  {
    var b := Bold(s);
    var it := Italic(b, false);
    BoldKeepsText(s);
    ItalicKeepsText(b, false);
    FilterWeaker(s, NotStar, Plain);
    FilterWeaker(b, NotStar, Plain);
    FilterWeaker(it, NotStar, Plain);
  }

  /** Removing the heading marker keeps every plain character. */
  lemma MarkerKeepsPlain(it: string)
    ensures Filter(StripHeadingMarker(it), Plain) == Filter(it, Plain)
  {
    var r := StripHeadingMarker(it);
    StripHeadingMarkerSuffix(it);
    var k := |it| - |r|;
    assert it == it[..k] + r;
    FilterConcat(it[..k], r, Plain);
    FilterNone(it[..k], Plain);
  }

  // ---------------------------------------------------------------------
  // sanitize_caption and the caption fallback

  predicate WordOrSpace(c: char) { IsWordChar(c) || IsSpace(c) }

  /** `re.sub(r"[^\w\s]", " ", s)` */
  function PunctToSpace(s: string): (r: string)
    ensures |r| == |s|
    ensures forall i :: 0 <= i < |s| ==> r[i] == if WordOrSpace(s[i]) then s[i] else ' '
  {
    Map(s, (c: char) => if WordOrSpace(c) then c else ' ')
  }

  /** `re.sub(r"\s+", " ", s)` */
  function CollapseSpaces(s: string): (r: string)
    ensures forall i :: 0 <= i < |r| && !IsSpace(r[i]) ==> r[i] in s
    decreases |s|
  {
    if s == [] then []
    else if IsSpace(s[0]) then
      var n := RunLength(s, IsSpace);
      var r := CollapseSpaces(s[n..]);
      assert forall i :: n <= i < |s| ==> s[i] == s[n..][i - n];
      " " + r
    else
      var r := CollapseSpaces(s[1..]);
      assert forall i :: 1 <= i < |s| ==> s[i] == s[1..][i - 1];
      [s[0]] + r
  }

  /** Collapsing leaves a string of whitespace exactly when it was one. */
  lemma {:induction false} CollapseAllSpace(s: string)
    ensures (forall i :: 0 <= i < |CollapseSpaces(s)| ==> IsSpace(CollapseSpaces(s)[i]))
        <==> (forall i :: 0 <= i < |s| ==> IsSpace(s[i]))
    decreases |s|
  {
    if s != [] {
      var c := CollapseSpaces(s);
      if IsSpace(s[0]) {
        var n := RunLength(s, IsSpace);
        var r := CollapseSpaces(s[n..]);
        CollapseAllSpace(s[n..]);
        assert c == " " + r;
        assert IsSpace(c[0]);
        assert forall i :: 1 <= i < |c| ==> c[i] == r[i - 1];
        assert forall i :: n <= i < |s| ==> s[i] == s[n..][i - n];
        if forall i :: 0 <= i < |c| ==> IsSpace(c[i]) {
          assert forall i :: 0 <= i < |r| ==> IsSpace(r[i]) by {
            forall i | 0 <= i < |r| ensures IsSpace(r[i]) { assert r[i] == c[i + 1]; }
          }
        }
        if forall i :: 0 <= i < |s| ==> IsSpace(s[i]) {
          assert forall i :: 0 <= i < |s[n..]| ==> IsSpace(s[n..][i]);
        }
      } else {
        assert !IsSpace(c[0]);
      }
    }
  }

  /** The words left after punctuation is blanked and whitespace collapsed
      and stripped. */
  function CaptionWords(caption: string): seq<string> {
    Words(Strip(CollapseSpaces(PunctToSpace(caption))))
  }

  /** The first `maxWords` words (`words[:max_words]`, so a negative bound
      counts from the end), each cut to 20 characters. */
  function Shortened(words: seq<string>, maxWords: int): (r: seq<string>)
    ensures |r| <= |words|
    ensures maxWords >= 0 ==> |r| <= maxWords
    ensures forall i :: 0 <= i < |r| ==> |r[i]| <= 20
  {
    Map(PySlice(words, 0, maxWords), (w: string) => PySlice(w, 0, 20))
  }

  /** `sanitize_caption` */
  function SanitizeCaption(caption: string, maxWords: int): string {
    var words := CaptionWords(caption);
    if words == [] then "Image" else Join(" ", Shortened(words, maxWords))
  }

  /** The caption has no words left exactly when it had no word character. */
  lemma CaptionWordsEmpty(caption: string)
    ensures CaptionWords(caption) == [] <==> forall i :: 0 <= i < |caption| ==> !IsWordChar(caption[i])
  {
    var p := PunctToSpace(caption);
    var c := CollapseSpaces(p);
    CollapseAllSpace(p);
    StripChars(c, IsWordChar);
    RunsEmpty(Strip(c), NotSpace);
    if CaptionWords(caption) == [] {
      forall i | 0 <= i < |caption| ensures !IsWordChar(caption[i]) {
        assert IsSpace(p[i]);
      }
    }
  }

  /** Every word of the caption is non-empty and made of word characters. */
  lemma CaptionWordsAreWords(caption: string)
    ensures forall i :: 0 <= i < |CaptionWords(caption)| ==> CaptionWords(caption)[i] != []
    ensures forall i, j :: 0 <= i < |CaptionWords(caption)| && 0 <= j < |CaptionWords(caption)[i]| ==>
              IsWordChar(CaptionWords(caption)[i][j])
  {
    var p := PunctToSpace(caption);
    var c := CollapseSpaces(p);
    forall i | 0 <= i < |c| && !IsSpace(c[i]) ensures IsWordChar(c[i]) {
      var k :| 0 <= k < |p| && p[k] == c[i];
    }
    StripChars(c, IsWordChar);
    RunsFrom(Strip(c), NotSpace, IsWordChar);
  }

  /** Non-empty words of word characters, joined by single spaces, split
      back into the same words. */
  lemma JoinedWordsSplit(ws: seq<string>)
    requires ws != []
    requires forall i, j :: 0 <= i < |ws| && 0 <= j < |ws[i]| ==> IsWordChar(ws[i][j])
    ensures SplitOn(Join(" ", ws), ' ') == ws
  {
    forall i | 0 <= i < |ws| ensures ' ' !in ws[i] {
      assert forall j :: 0 <= j < |ws[i]| ==> ws[i][j] != ' ';
    }
    SplitJoin(ws, ' ');
  }

  /** Shortening keeps words non-empty and made of word characters. */
  lemma ShortenedWords(words: seq<string>, maxWords: int)
    requires forall i :: 0 <= i < |words| ==> words[i] != []
    requires forall i, j :: 0 <= i < |words| && 0 <= j < |words[i]| ==> IsWordChar(words[i][j])
    ensures var ws := Shortened(words, maxWords);
      (forall i :: 0 <= i < |ws| ==> 1 <= |ws[i]| <= 20)
      && (forall i, j :: 0 <= i < |ws| && 0 <= j < |ws[i]| ==> IsWordChar(ws[i][j]))
  {
    var ws := Shortened(words, maxWords);
    var lo := SliceBound(0, |words|);
    forall i | 0 <= i < |ws| ensures 1 <= |ws[i]| && forall j :: 0 <= j < |ws[i]| ==> IsWordChar(ws[i][j]) {
      var w := words[lo + i];
      assert ws[i] == PySlice(w, 0, 20);
      assert forall j :: 0 <= j < |ws[i]| ==> ws[i][j] == w[j];
    }
  }

  /** A caption with a word character gives at most `max_words` words of at
      most 20 word characters each, separated by single spaces; the result
      splits back into exactly those words. */
  lemma SanitizeCaptionShape(caption: string, maxWords: int)
    requires exists i :: 0 <= i < |caption| && IsWordChar(caption[i])
    ensures var ws := Shortened(CaptionWords(caption), maxWords);
      (forall i, j :: 0 <= i < |ws| && 0 <= j < |ws[i]| ==> IsWordChar(ws[i][j]))
      && (forall i :: 0 <= i < |ws| ==> 1 <= |ws[i]| <= 20)
      && (ws == [] ==> SanitizeCaption(caption, maxWords) == "")
      && (ws != [] ==> SplitOn(SanitizeCaption(caption, maxWords), ' ') == ws)
  {
    var words := CaptionWords(caption);
    CaptionWordsEmpty(caption);
    CaptionWordsAreWords(caption);
    var ws := Shortened(words, maxWords);
    ShortenedWords(words, maxWords);
    if ws != [] {
      JoinedWordsSplit(ws);
    }
  }

  /** With no words at all the caption becomes "Image". */
  lemma SanitizeCaptionNoWords(caption: string, maxWords: int)
    requires forall i :: 0 <= i < |caption| ==> !IsWordChar(caption[i])
    ensures SanitizeCaption(caption, maxWords) == "Image"
  {
    CaptionWordsEmpty(caption);
  }

  /** `max_words = 0` keeps no word: the result is empty, not "Image". */
  lemma SanitizeCaptionZero(caption: string)
    requires exists i :: 0 <= i < |caption| && IsWordChar(caption[i])
    ensures SanitizeCaption(caption, 0) == ""
  {
    CaptionWordsEmpty(caption);
  }

  /** `re.sub(r"[^\w\s]", "", s)` */
  function DeletePunct(s: string): (r: string)
    ensures forall i :: 0 <= i < |r| ==> WordOrSpace(r[i])
  {
    Filter(s, WordOrSpace)
  }

  /** The fallback caption of one prompt: punctuation deleted, at most the
      first eight words, joined by single spaces. */
  function FallbackCaption(prompt: string): string {
    Join(" ", Take(Words(Strip(DeletePunct(prompt))), 8))
  }

  /** `generate_image_captions_from_prompts` without a language-model
      client: one fallback caption per prompt, in order. */
  method CaptionFallback(prompts: seq<string>) returns (captions: seq<string>)
    ensures |captions| == |prompts|
    ensures forall i :: 0 <= i < |prompts| ==> captions[i] == FallbackCaption(prompts[i])
  {
    captions := [];
    for i := 0 to |prompts|
      invariant |captions| == i
      invariant forall k :: 0 <= k < i ==> captions[k] == FallbackCaption(prompts[k])
    {
      captions := captions + [FallbackCaption(prompts[i])];
    }
  }

  /** A fallback caption has no punctuation and at most eight words: it
      splits on single spaces into at most eight word-character pieces. */
  lemma FallbackCaptionShape(prompt: string)
    ensures var ws := Take(Words(Strip(DeletePunct(prompt))), 8);
      |ws| <= 8
      && (forall i, j :: 0 <= i < |ws| && 0 <= j < |ws[i]| ==> IsWordChar(ws[i][j]))
      && (ws == [] ==> FallbackCaption(prompt) == "")
      && (ws != [] ==> SplitOn(FallbackCaption(prompt), ' ') == ws)
  {
    var d := DeletePunct(prompt);
    StripChars(d, IsWordChar);
    RunsFrom(Strip(d), NotSpace, IsWordChar);
    var words := Words(Strip(d));
    var ws := Take(words, 8);
    assert forall i :: 0 <= i < |ws| ==> ws[i] == words[i];
    if ws != [] {
      JoinedWordsSplit(ws);
    }
  }

  // ---------------------------------------------------------------------
  // reading time

  /** `max(1, int(word_count / 230))` with `word_count = len(content.split())`:
      at least one minute, and beyond that the whole number of 230-word
      minutes. */
  function ReadingTime(content: string): (minutes: int)
    ensures minutes >= 1
    ensures minutes == 1 <==> |Words(content)| < 460
    ensures minutes > 1 ==> 230 * minutes <= |Words(content)| < 230 * (minutes + 1)
  {
    var m := |Words(content)| / 230;
    if m > 1 then m else 1
  }
}
