/** The naive sentence splitter and the regex cues that the phase-8
    hallucination and fact agents share: `re.split(r"(?<=[.!?])\s+", s)`,
    `\d`, `[A-Z][a-z]{2,}` and the citation markers. */
module SentenceCues {
  import opened PyText
  import opened SeqUtil

  predicate IsTerminal(c: char) { c == '.' || c == '!' || c == '?' }

  /** Position `j` starts a whitespace run right after `.`, `!` or `?`:
      the only places where the splitter cuts. */
  predicate BreakAt(s: string, j: int) {
    0 < j < |s| && IsTerminal(s[j - 1]) && IsSpace(s[j])
  }

  /** The scan of `re.split` from position `j` on, knowing no break lies
      before `j`: the maximal whitespace run after the first break is the
      separator. */
  function SentencesFrom(s: string, j: nat): seq<string>
    requires j >= 1
    decreases |s|, |s| - j
  {
    if j >= |s| then [s]
    else if BreakAt(s, j) then
      var n := RunLength(s[j..], IsSpace);
      [s[..j]] + SentencesFrom(s[j + n..], 1)
    else SentencesFrom(s, j + 1)
  }

  /** `re.split(r"(?<=[.!?])\s+", s)` */
  function SplitSentences(s: string): seq<string> {
    SentencesFrom(s, 1)
  }

  /** `re.split(r"(?<=[.!?])\s+", text.strip())` */
  function Sentences(text: string): seq<string> {
    SplitSentences(Strip(text))
  }

  lemma {:induction false} SentencesFromNonEmpty(s: string, j: nat)
    requires j >= 1
    ensures |SentencesFrom(s, j)| >= 1
    decreases |s|, |s| - j
  {
    if j < |s| {
      if BreakAt(s, j) {
        var n := RunLength(s[j..], IsSpace);
        SentencesFromNonEmpty(s[j + n..], 1);
      } else {
        SentencesFromNonEmpty(s, j + 1);
      }
    }
  }

  lemma {:induction false} SentencesFromNoBreak(s: string, j: nat)
    requires j >= 1
    requires forall m :: 0 < m < j ==> !BreakAt(s, m)
    ensures forall k, m :: 0 <= k < |SentencesFrom(s, j)| ==> !BreakAt(SentencesFrom(s, j)[k], m)
    decreases |s|, |s| - j
  {
    var r := SentencesFrom(s, j);
    if j >= |s| {
      forall k, m | 0 <= k < |r| ensures !BreakAt(r[k], m) {
        if 0 < m < j {
          assert !BreakAt(s, m);
        }
      }
    } else if BreakAt(s, j) {
      var n := RunLength(s[j..], IsSpace);
      var rest := SentencesFrom(s[j + n..], 1);
      SentencesFromNoBreak(s[j + n..], 1);
      assert r == [s[..j]] + rest;
      forall k, m | 0 <= k < |r| ensures !BreakAt(r[k], m) {
        if k == 0 {
          if BreakAt(s[..j], m) {
            assert BreakAt(s, m);
          }
        } else {
          assert r[k] == rest[k - 1];
        }
      }
    } else {
      SentencesFromNoBreak(s, j + 1);
    }
  }

  lemma {:induction false} SentencesFromWhole(s: string, j: nat)
    requires j >= 1
    requires forall m :: j <= m ==> !BreakAt(s, m)
    ensures SentencesFrom(s, j) == [s]
    decreases |s| - j
  {
    if j < |s| {
      SentencesFromWhole(s, j + 1);
    }
  }

  /** The splitter returns at least one piece, no piece contains a place
      where it would cut again, and it returns the text whole exactly when
      no terminal mark is followed by whitespace. */
  lemma SplitSentencesShape(s: string)
    ensures |SplitSentences(s)| >= 1
    ensures forall k, m :: 0 <= k < |SplitSentences(s)| ==> !BreakAt(SplitSentences(s)[k], m)
    ensures SplitSentences(s) == [s] <==> forall m :: !BreakAt(s, m)
  {
    SentencesFromNonEmpty(s, 1);
    SentencesFromNoBreak(s, 1);
    if forall m :: !BreakAt(s, m) {
      SentencesFromWhole(s, 1);
    } else {
      var m :| BreakAt(s, m);
      assert !BreakAt(SplitSentences(s)[0], m);
    }
  }

  lemma {:induction false} SentencesFromKeepsText(s: string, j: nat)
    requires j >= 1
    ensures Filter(Flatten(SentencesFrom(s, j)), NotSpace) == Filter(s, NotSpace)
    decreases |s|, |s| - j
  {
    if j < |s| {
      if BreakAt(s, j) {
        var n := RunLength(s[j..], IsSpace);
        SentencesFromKeepsText(s[j + n..], 1);
        CutKeepsText(s, j, n, SentencesFrom(s[j + n..], 1));
      } else {
        SentencesFromKeepsText(s, j + 1);
      }
    } else {
      assert SentencesFrom(s, j) == [s];
      FlattenOne(s);
    }
  }

  /** One cut: the piece before the break, then the pieces after the
      whitespace run, hold the non-space characters of the whole. */
  lemma CutKeepsText(s: string, j: nat, n: nat, rest: seq<string>)
    requires j + n <= |s| && forall i :: j <= i < j + n ==> IsSpace(s[i])
    requires Filter(Flatten(rest), NotSpace) == Filter(s[j + n..], NotSpace)
    ensures Filter(Flatten([s[..j]] + rest), NotSpace) == Filter(s, NotSpace)
  {
    var a, w, b := s[..j], s[j..j + n], s[j + n..];
    FlattenAppend([a], rest);
    FlattenOne(a);
    assert s == a + w + b;
    FilterNone(w, NotSpace);
    calc {
      Filter(Flatten([a] + rest), NotSpace);
      Filter(a + Flatten(rest), NotSpace);
      { FilterConcat(a, Flatten(rest), NotSpace); }
      Filter(a, NotSpace) + Filter(b, NotSpace);
      { FilterConcat(a, w, NotSpace); assert Filter(a + w, NotSpace) == Filter(a, NotSpace); }
      Filter(a + w, NotSpace) + Filter(b, NotSpace);
      { FilterConcat(a + w, b, NotSpace); }
      Filter(s, NotSpace);
    }
  }

  /** Splitting only drops whitespace: the sentences, read one after the
      other, hold the same non-space characters as the text. */
  lemma SplitSentencesKeepsText(s: string)
    ensures Filter(Flatten(SplitSentences(s)), NotSpace) == Filter(s, NotSpace)
  {
    SentencesFromKeepsText(s, 1);
  }

  /** `re.search(r"\d", s)` */
  predicate HasDigit(s: string) {
    exists i :: 0 <= i < |s| && IsDigit(s[i])
  }

  /** `re.search(r"[A-Z][a-z]{2,}", s)`: a capital followed by two lower-case
      letters anywhere. */
  predicate HasCapitalWord(s: string) {
    exists i :: 0 <= i && i + 2 < |s| && IsUpper(s[i]) && IsLower(s[i + 1]) && IsLower(s[i + 2])
  }

  /** `re.search(r"(19|20)\d{2}", s)` */
  predicate HasYear(s: string) {
    exists i :: 0 <= i && i + 3 < |s| && IsCenturyAt(s, i) && IsDigit(s[i + 2]) && IsDigit(s[i + 3])
  }

  predicate IsCenturyAt(s: string, i: nat)
    requires i + 1 < |s|
  {
    (s[i] == '1' && s[i + 1] == '9') || (s[i] == '2' && s[i + 1] == '0')
  }

  predicate AllDigits(s: string) {
    forall m :: 0 <= m < |s| ==> IsDigit(s[m])
  }

  /** `re.search(r"\[\d+\]", s)`, and `\[[0-9]+\]` alike. */
  predicate HasBracketNumber(s: string) {
    exists i, j :: 0 <= i && i + 1 < j < |s| && s[i] == '[' && s[j] == ']' && AllDigits(s[i + 1..j])
  }

  /** `re.search(r"\(.*\d{4}.*\)", s)`: an opening parenthesis, later four
      digits in a row, later a closing one, with no newline in between
      (`.` does not match a newline). */
  predicate HasParenYear(s: string) {
    exists i, p :: 0 <= i < p < |s| && ParenYearAt(s, i, p)
  }

  predicate ParenYearAt(s: string, i: int, p: int) {
    0 <= i < p && p + 4 <= |s| && s[i] == '(' && AllDigits(s[p..p + 4]) && ClosesWithoutNewline(s, i, p + 4)
  }

  predicate ClosesWithoutNewline(s: string, i: nat, from: nat)
    requires i < from <= |s|
  {
    exists q :: from <= q < |s| && s[q] == ')' && NoNewline(s[i + 1..q])
  }

  predicate NoNewline(s: string) {
    forall m :: 0 <= m < |s| ==> s[m] != '\n'
  }
}
