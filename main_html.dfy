/** The line renderer inside `generate_html` (`main.py`): the blog text is
    split into lines, each line is classified, and HTML is appended to an
    accumulator while an `in_list` flag tracks whether a `<ul>` is open. */
module HtmlRenderer {
  import opened Wrappers
  import opened SeqUtil
  import opened PyText
  import opened TextHelpers

  /** One `html_template +=` of the line loop, holding the source text it
      formats. */
  datatype Piece =
    | OpenList
    | CloseList
    | LineBreak
    | HeadingTag(tag: string, text: string)
    | Quote(text: string)
    | ListItem(text: string)
    | LabelPara(lead: string, rest: string)
    | Para(text: string)

  /** The exact text each piece appends: the source text goes through
      `clean_markdown_formatting` and is not HTML-escaped. */
  function Render(p: Piece): string {
    match p
    case OpenList => "        <ul>\n"
    case CloseList => "        </ul>\n"
    case LineBreak => "        <br>\n"
    case HeadingTag(tag, text) => "        <" + tag + ">" + CleanMarkdownFormatting(text) + "</" + tag + ">\n"
    case Quote(text) => "        <blockquote>" + CleanMarkdownFormatting(text) + "</blockquote>\n"
    case ListItem(text) => "            <li>" + CleanMarkdownFormatting(text) + "</li>\n"
    case LabelPara(lead, rest) =>
      "        <p><strong>" + CleanMarkdownFormatting(lead) + ":</strong> "
      + (if Strip(rest) != [] then CleanMarkdownFormatting(Strip(rest)) else "") + "</p>\n"
    case Para(text) => "        <p>" + CleanMarkdownFormatting(text) + "</p>\n"
  }

  /** The accumulated HTML of a sequence of pieces. */
  function Concat(ps: seq<Piece>): string {
    if ps == [] then "" else Concat(ps[..|ps| - 1]) + Render(ps[|ps| - 1])
  }

  /** The `#` count the heading pattern `^\s*(#{1,6})` captures. */
  function HeadingLevel(stripped: string): (level: nat)
    requires stripped != [] && stripped[0] == '#'
    ensures 1 <= level <= 6 && level <= |stripped|
    ensures forall i :: 0 <= i < level ==> stripped[i] == '#'
    ensures level < 6 ==> level == |stripped| || stripped[level] != '#'
  {
    var run := RunLength(stripped, IsHash);
    if run < 6 then run else 6
  }

  /** h1 to h5 by level; anything else is h6. */
  function HeadingTagName(level: nat): string {
    if level == 1 then "h1"
    else if level == 2 then "h2"
    else if level == 3 then "h3"
    else if level == 4 then "h4"
    else if level == 5 then "h5"
    else "h6"
  }

  /** Index of the first `:`, which `str.partition(":")` splits at. */
  function FindColon(s: string): (r: Option<nat>)
    ensures r.Some? ==> r.value < |s| && s[r.value] == ':' && forall i :: 0 <= i < r.value ==> s[i] != ':'
    ensures r.None? ==> forall i :: 0 <= i < |s| ==> s[i] != ':'
  {
    if s == [] then None
    else if s[0] == ':' then Some(0)
    else
      match FindColon(s[1..])
      case None => None
      case Some(j) => Some(j + 1)
  }

  /** The text before a colon reads as a label: at most five words, each
      starting with an uppercase letter. */
  predicate IsLabel(lead: string) {
    var ws := Words(lead);
    |ws| <= 5 && forall i :: 0 <= i < |ws| ==> IsUpper(ws[i][0])
  }

  /** `line.rstrip().strip()` */
  function StrippedLine(line: string): string {
    Strip(RStrip(line))
  }

  /** A bullet item: not blank, not a heading, not a blockquote, and starting
      with `- ` or `* `. */
  predicate IsBulletLine(line: string) {
    var st := StrippedLine(line);
    st != [] && st[0] != '#' && !StartsWith(st, "> ") && (StartsWith(st, "- ") || StartsWith(st, "* "))
  }

  function CloseIf(open: bool): seq<Piece> {
    if open then [CloseList] else []
  }

  function OpenIf(closed: bool): seq<Piece> {
    if closed then [OpenList] else []
  }

  /** The piece of a line that is neither blank, heading, blockquote nor
      bullet: a bold label when the text before the first colon reads as one,
      otherwise a paragraph. */
  function TextPiece(st: string): Piece {
    match FindColon(st)
    case Some(k) => if IsLabel(st[..k]) then LabelPara(st[..k], st[k + 1..]) else Para(st)
    case None => Para(st)
  }

  /** The pieces one line appends, and the new `in_list`, tried in the
      loop's order: blank, heading, blockquote, bullet, label or paragraph. */
  function LineStep(inList: bool, line: string): (seq<Piece>, bool) {
    var st := StrippedLine(line);
    if st == [] then (CloseIf(inList) + [LineBreak], false)
    else if st[0] == '#' then (CloseIf(inList) + [HeadingTag(HeadingTagName(HeadingLevel(st)), st)], false)
    else if StartsWith(st, "> ") then (CloseIf(inList) + [Quote(st[2..])], false)
    else if StartsWith(st, "- ") || StartsWith(st, "* ") then
      (OpenIf(!inList) + [ListItem(st[2..])], true)
    else (CloseIf(inList) + [TextPiece(st)], false)
  }

  /** The pieces of a run of lines and the `in_list` flag after it. */
  function RenderLines(lines: seq<string>): (seq<Piece>, bool) {
    if lines == [] then ([], false)
    else
      var before := RenderLines(lines[..|lines| - 1]);
      var step := LineStep(before.1, lines[|lines| - 1]);
      (before.0 + step.0, step.1)
  }

  /** All pieces of the content, with the list closed at the end if open. */
  function ContentPieces(content: string): seq<Piece> {
    var r := RenderLines(SplitOn(content, '\n'));
    r.0 + (if r.1 then [CloseList] else [])
  }

  /** `html_template += ...` */
  method Emit(html: string, ghost pieces: seq<Piece>, p: Piece) returns (html': string, ghost pieces': seq<Piece>)
    requires html == Concat(pieces)
    ensures pieces' == pieces + [p]
    ensures html' == Concat(pieces')
  {
    html' := html + Render(p);
    pieces' := pieces + [p];
    assert pieces'[..|pieces|] == pieces;
  }

  /** `if in_list: html += "</ul>"; in_list = False`, then one more piece. */
  method CloseThenEmit(html: string, ghost pieces: seq<Piece>, inList: bool, p: Piece)
    returns (html': string, ghost pieces': seq<Piece>)
    requires html == Concat(pieces)
    ensures pieces' == pieces + (CloseIf(inList) + [p])
    ensures html' == Concat(pieces')
  {
    html', pieces' := html, pieces;
    if inList {
      html', pieces' := Emit(html', pieces', CloseList);
    }
    html', pieces' := Emit(html', pieces', p);
  }

  /** `if not in_list: html += "<ul>"; in_list = True`, then a list item. */
  method OpenThenEmit(html: string, ghost pieces: seq<Piece>, inList: bool, p: Piece)
    returns (html': string, ghost pieces': seq<Piece>)
    requires html == Concat(pieces)
    ensures pieces' == pieces + (OpenIf(!inList) + [p])
    ensures html' == Concat(pieces')
  {
    html', pieces' := html, pieces;
    if !inList {
      html', pieces' := Emit(html', pieces', OpenList);
    }
    html', pieces' := Emit(html', pieces', p);
  }

  /** The body of the line loop of `generate_html`: classify one line and
      append its HTML, opening or closing the list as needed. */
  method AppendLine(html: string, ghost pieces: seq<Piece>, inList: bool, line: string)
    returns (html': string, ghost pieces': seq<Piece>, inList': bool)
    requires html == Concat(pieces)
    ensures pieces' == pieces + LineStep(inList, line).0 && inList' == LineStep(inList, line).1
    ensures html' == Concat(pieces')
  {
    var raw := RStrip(line);
    var stripped := Strip(raw);
    assert stripped == StrippedLine(line);
    if stripped == [] {
      assert LineStep(inList, line) == (CloseIf(inList) + [LineBreak], false);
      html', pieces' := CloseThenEmit(html, pieces, inList, LineBreak);
      inList' := false;
    } else if stripped[0] == '#' {
      var level := HeadingLevel(stripped);
      var p := HeadingTag(HeadingTagName(level), stripped);
      assert LineStep(inList, line) == (CloseIf(inList) + [p], false);
      html', pieces' := CloseThenEmit(html, pieces, inList, p);
      inList' := false;
    } else if StartsWith(stripped, "> ") {
      assert LineStep(inList, line) == (CloseIf(inList) + [Quote(stripped[2..])], false);
      html', pieces' := CloseThenEmit(html, pieces, inList, Quote(stripped[2..]));
      inList' := false;
    } else if StartsWith(stripped, "- ") || StartsWith(stripped, "* ") {
      assert LineStep(inList, line) == (OpenIf(!inList) + [ListItem(stripped[2..])], true);
      html', pieces' := OpenThenEmit(html, pieces, inList, ListItem(stripped[2..]));
      inList' := true;
    } else {
      assert LineStep(inList, line) == (CloseIf(inList) + [TextPiece(stripped)], false);
      var lead, sep, rest := Partition(stripped);
      if sep && IsLabel(lead) {
        assert TextPiece(stripped) == LabelPara(lead, rest);
        html', pieces' := CloseThenEmit(html, pieces, inList, LabelPara(lead, rest));
      } else {
        assert TextPiece(stripped) == Para(stripped);
        html', pieces' := CloseThenEmit(html, pieces, inList, Para(stripped));
      }
      inList' := false;
    }
  }

  /** `str.partition(":")`: the text before the first colon, whether there
      was one, and the text after it. */
  method Partition(s: string) returns (lead: string, sep: bool, rest: string)
    ensures sep <==> FindColon(s).Some?
    ensures sep ==> lead == s[..FindColon(s).value] && rest == s[FindColon(s).value + 1..]
    ensures !sep ==> lead == s && rest == []
  {
    var colon := FindColon(s);
    if colon.Some? {
      lead, sep, rest := s[..colon.value], true, s[colon.value + 1..];
    } else {
      lead, sep, rest := s, false, [];
    }
  }

  lemma RenderLinesSnoc(lines: seq<string>, i: nat)
    requires i < |lines|
    ensures var before := RenderLines(lines[..i]);
      RenderLines(lines[..i + 1]) == (before.0 + LineStep(before.1, lines[i]).0, LineStep(before.1, lines[i]).1)
  {
    assert lines[..i + 1][..i] == lines[..i];
  }

  /** The content part of `generate_html`: every line in order, then the
      closing `</ul>` if a list is still open. */
  method GenerateContentHtml(content: string) returns (html: string)
    ensures html == Concat(ContentPieces(content))
  {
    var lines := SplitOn(content, '\n');
    html := "";
    var inList := false;
    ghost var pieces: seq<Piece> := [];
    var i := 0;
    while i < |lines|
      invariant 0 <= i <= |lines|
      invariant RenderLines(lines[..i]) == (pieces, inList)
      invariant html == Concat(pieces)
    {
      RenderLinesSnoc(lines, i);
      html, pieces, inList := AppendLine(html, pieces, inList, lines[i]);
      i := i + 1;
    }
    assert lines[..i] == lines;
    ghost var whole := pieces + CloseIf(inList);
    assert ContentPieces(content) == whole;
    if inList {
      html, pieces := Emit(html, pieces, CloseList);
    } else {
      assert pieces == whole;
    }
  }

  // ---------------------------------------------------------------------
  // List nesting

  /** The `in_list` state after one more piece, or None when the piece is
      out of place: a `<ul>` inside a list, a `</ul>` or `<li>` outside
      one, or any other element inside one. */
  function Next(open: bool, p: Piece): Option<bool> {
    match p
    case OpenList => if open then None else Some(true)
    case CloseList => if open then Some(false) else None
    case ListItem(_) => if open then Some(true) else None
    case _ => if open then None else Some(false)
  }

  /** Replays a sequence of pieces from outside any list. */
  function Scan(ps: seq<Piece>): Option<bool> {
    if ps == [] then Some(false)
    else
      match Scan(ps[..|ps| - 1])
      case None => None
      case Some(open) => Next(open, ps[|ps| - 1])
  }

  lemma ScanAppend(ps: seq<Piece>, p: Piece, open: bool)
    requires Scan(ps) == Some(open)
    ensures Scan(ps + [p]) == Next(open, p)
  {
    assert (ps + [p])[..|ps|] == ps;
  }

  /** A piece that neither opens, closes nor belongs to a list. */
  predicate Neutral(p: Piece) { !p.OpenList? && !p.CloseList? && !p.ListItem? }

  /** What one line appends: a bullet line opens a list if none is open and
      adds an item; any other line closes an open list and adds one
      neutral piece. */
  predicate StepShape(open: bool, qs: seq<Piece>, open': bool) {
    |qs| >= 1
    && (open' ==> qs == (if open then [] else [OpenList]) + [qs[|qs| - 1]] && qs[|qs| - 1].ListItem?)
    && (!open' ==> qs == (if open then [CloseList] else []) + [qs[|qs| - 1]] && Neutral(qs[|qs| - 1]))
  }

  lemma LineStepShape(open: bool, line: string)
    ensures StepShape(open, LineStep(open, line).0, LineStep(open, line).1)
    ensures LineStep(open, line).1 <==> IsBulletLine(line)
  {
  }

  /** One line keeps the replay in step with the loop's `in_list` flag. */
  lemma ShapeScans(ps: seq<Piece>, open: bool, qs: seq<Piece>, open': bool)
    requires Scan(ps) == Some(open)
    requires StepShape(open, qs, open')
    ensures Scan(ps + qs) == Some(open')
  {
    var last := qs[|qs| - 1];
    if |qs| == 1 {
      ScanAppend(ps, last, open);
      assert ps + qs == ps + [last];
    } else {
      ScanAppend(ps, qs[0], open);
      ScanAppend(ps + [qs[0]], last, !open);
      assert ps + qs == ps + [qs[0]] + [last];
    }
  }

  lemma {:induction false} RenderLinesScan(lines: seq<string>)
    ensures Scan(RenderLines(lines).0) == Some(RenderLines(lines).1)
    decreases |lines|
  {
    if lines != [] {
      var (ps, open) := RenderLines(lines[..|lines| - 1]);
      RenderLinesScan(lines[..|lines| - 1]);
      LineStepShape(open, lines[|lines| - 1]);
      ShapeScans(ps, open, LineStep(open, lines[|lines| - 1]).0, LineStep(open, lines[|lines| - 1]).1);
    }
  }

  /** Every `<ul>` is closed exactly once, every `<li>` sits inside one, and
      nothing else does: a blank, heading, blockquote or paragraph line
      closes an open list first, and the end of the text closes the last. */
  lemma ContentWellNested(content: string)
    ensures Scan(ContentPieces(content)) == Some(false)
  {
    var (ps, open) := RenderLines(SplitOn(content, '\n'));
    RenderLinesScan(SplitOn(content, '\n'));
    if open {
      ScanAppend(ps, CloseList, true);
    } else {
      assert ps + [] == ps;
    }
  }

  // ---------------------------------------------------------------------
  // One list per run of bullet lines

  predicate IsOpenList(p: Piece) { p.OpenList? }

  /** The number of maximal runs of consecutive bullet lines. */
  function BulletRuns(lines: seq<string>): nat {
    if lines == [] then 0
    else
      var n := |lines| - 1;
      BulletRuns(lines[..n])
        + (if IsBulletLine(lines[n]) && !(n > 0 && IsBulletLine(lines[n - 1])) then 1 else 0)
  }

  lemma ShapeOpens(open: bool, qs: seq<Piece>, open': bool)
    requires StepShape(open, qs, open')
    ensures |Filter(qs, IsOpenList)| == if open' && !open then 1 else 0
  {
    var last := qs[|qs| - 1];
    if |qs| == 1 {
      assert qs == [last];
    } else {
      assert qs == [qs[0]] + [last];
      FilterConcat([qs[0]], [last], IsOpenList);
    }
  }

  /** After a run of lines a list is open exactly when the last line is a
      bullet line. */
  lemma RenderLinesInList(lines: seq<string>)
    ensures RenderLines(lines).1 <==> lines != [] && IsBulletLine(lines[|lines| - 1])
  {
    if lines != [] {
      var n := |lines| - 1;
      LineStepShape(RenderLines(lines[..n]).1, lines[n]);
    }
  }

  lemma {:induction false} RenderLinesOpens(lines: seq<string>)
    ensures |Filter(RenderLines(lines).0, IsOpenList)| == BulletRuns(lines)
    decreases |lines|
  {
    if lines != [] {
      var n := |lines| - 1;
      var prefix := RenderLines(lines[..n]);
      var step := LineStep(prefix.1, lines[n]);
      RenderLinesOpens(lines[..n]);
      RenderLinesInList(lines[..n]);
      assert prefix.1 <==> n > 0 && IsBulletLine(lines[n - 1]) by {
        if n > 0 {
          assert lines[..n][n - 1] == lines[n - 1];
        }
      }
      LineStepShape(prefix.1, lines[n]);
      ShapeOpens(prefix.1, step.0, step.1);
      FilterConcat(prefix.0, step.0, IsOpenList);
    }
  }

  /** Consecutive bullet lines share one `<ul>`: the content opens exactly
      one list per run of bullet lines. */
  lemma OneListPerRun(content: string)
    ensures |Filter(ContentPieces(content), IsOpenList)| == BulletRuns(SplitOn(content, '\n'))
  {
    var (ps, open) := RenderLines(SplitOn(content, '\n'));
    RenderLinesOpens(SplitOn(content, '\n'));
    FilterConcat(ps, if open then [CloseList] else [], IsOpenList);
  }
}
