/**
 * The terminal's output surface and its rendering primitives: instant rows,
 * clearing, character-by-character reveal (typewriter and matrix cascade),
 * and the greedy word wrap used by the CV panels.
 */
module Rendering {
  import opened Text

  /**
   * How a row was produced: `addLine` (plain), an animated typewriter row
   * (with the flicker class when glitch mode was on), a static glitch-styled
   * row, or a matrix-cascade row. Styles never alter the text.
   */
  datatype Style = Plain | Typed(flicker: bool) | GlitchText | MatrixText

  datatype Row = Row(text: string, style: Style)

  /** The text of an `&nbsp;` row. */
  const NBSP: char := '\U{00A0}'

  /** The row `addLine` creates: a blank text becomes a non-breaking space, any other text is kept verbatim. */
  function LineRow(text: string): (r: Row)
    ensures r.style == Plain
    ensures IsBlank(text) ==> r.text == [NBSP]
    ensures !IsBlank(text) ==> r.text == text
  {
    Row(if IsBlank(text) then [NBSP] else text, Plain)
  }

  /** `addLine`: appends exactly one row and keeps every earlier row. */
  function AddLine(out: seq<Row>, text: string): (r: seq<Row>)
    ensures |r| == |out| + 1 && r[..|out|] == out
    ensures r[|out|].style == Plain
    ensures IsBlank(text) ==> r[|out|].text == [NBSP]
    ensures !IsBlank(text) ==> r[|out|].text == text
  {
    out + [LineRow(text)]
  }

  /** `clearTerminal`: no row survives. */
  function ClearTerminal(out: seq<Row>): (r: seq<Row>)
    ensures |r| == 0
  {
    []
  }

  /**
   * The reveal loop shared by `typeText` and `matrixCascade`: while characters
   * remain, append the next one. `frames[k]` is the content after step k + 1.
   */
  method RevealByChar(prior: string, text: string) returns (content: string, frames: seq<string>)
    ensures content == prior + text
    ensures |frames| == |text|
    ensures forall k :: 0 <= k < |text| ==> frames[k] == prior + text[..k + 1]
  {
    var i := 0;
    content := prior;
    frames := [];
    while i < |text|
      invariant 0 <= i <= |text|
      invariant content == prior + text[..i]
      invariant |frames| == i
      invariant forall k :: 0 <= k < i ==> frames[k] == prior + text[..k + 1]
    {
      content := content + [text[i]];
      assert text[..i + 1] == text[..i] + [text[i]];
      i := i + 1;
      frames := frames + [content];
    }
    assert text[..i] == text;
  }

  /**
   * `typeText`: the row ends holding its prior text followed by `text`, one
   * character per step. Glitch mode only toggles a transient CSS class, so
   * the outcome is the same whatever `glitch` is.
   */
  method TypeText(line: Row, text: string, glitch: bool) returns (r: Row, frames: seq<string>)
    ensures r == Row(line.text + text, line.style)
    ensures |frames| == |text|
    ensures forall k :: 0 <= k < |text| ==> frames[k] == line.text + text[..k + 1]
  {
    var content;
    content, frames := RevealByChar(line.text, text);
    r := Row(content, line.style);
  }

  /** `matrixCascade`: marks the row as matrix text and appends `text` one character per step. */
  method MatrixCascade(line: Row, text: string) returns (r: Row, frames: seq<string>)
    ensures r == Row(line.text + text, MatrixText)
    ensures |frames| == |text|
    ensures forall k :: 0 <= k < |text| ==> frames[k] == line.text + text[..k + 1]
  {
    var content;
    content, frames := RevealByChar(line.text, text);
    r := Row(content, MatrixText);
  }

  // ---------------------------------------------------------------------
  // wrapText
  // ---------------------------------------------------------------------

  /** The loop state of `wrapText`: the finished lines and the line being filled. */
  datatype WrapState = WrapState(lines: seq<string>, current: string)

  /**
   * One word of `wrapText`: it joins the current line when current + word + 1
   * fits (the 1 is counted even when the line is empty); otherwise the current
   * line is closed, even when it is empty, and the word starts the next one.
   */
  function WrapStep(st: WrapState, word: string, maxWidth: int): WrapState {
    if |st.current| + |word| + 1 <= maxWidth then
      WrapState(st.lines, st.current + (if st.current == [] then [] else " ") + word)
    else
      WrapState(st.lines + [st.current], word)
  }

  function WrapWords(st: WrapState, words: seq<string>, maxWidth: int): (r: WrapState)
    decreases |words|
  {
    if |words| == 0 then st else WrapWords(WrapStep(st, words[0], maxWidth), words[1..], maxWidth)
  }

  /** `wrapText`: split on single spaces, fold the words, keep the last line only when non-empty. */
  function WrapText(text: string, maxWidth: int): seq<string> {
    var st := WrapWords(WrapState([], []), Split(text, ' '), maxWidth);
    if st.current != [] then st.lines + [st.current] else st.lines
  }

  /** The words of a sequence of lines, each line split on single spaces. */
  function Words(lines: seq<string>): seq<string>
    decreases |lines|
  {
    if |lines| == 0 then [] else Words(lines[..|lines| - 1]) + Split(lines[|lines| - 1], ' ')
  }

  /** The non-empty entries, in order. */
  function NonEmpty(ws: seq<string>): seq<string>
    decreases |ws|
  {
    if |ws| == 0 then []
    else NonEmpty(ws[..|ws| - 1]) + (if ws[|ws| - 1] == [] then [] else [ws[|ws| - 1]])
  }

  lemma {:induction false} NonEmptyAppend(a: seq<string>, b: seq<string>)
    ensures NonEmpty(a + b) == NonEmpty(a) + NonEmpty(b)
    decreases |b|
  {
    if |b| > 0 {
      var b' := b[..|b| - 1];
      assert (a + b)[..|a + b| - 1] == a + b';
      NonEmptyAppend(a, b');
    } else {
      assert a + b == a;
    }
  }

  lemma WordsSnoc(lines: seq<string>, line: string)
    ensures Words(lines + [line]) == Words(lines) + Split(line, ' ')
  {
    assert (lines + [line])[..|lines|] == lines;
  }

  predicate NoSpaces(words: seq<string>) {
    forall i :: 0 <= i < |words| ==> ' ' !in words[i]
  }

  /** The non-empty words held by a state: its closed lines, then its current line. */
  function HeldWords(st: WrapState): seq<string> {
    NonEmpty(Words(st.lines)) + NonEmpty(Split(st.current, ' '))
  }

  lemma NonEmptyOfEmptyLine()
    ensures NonEmpty(Split([], ' ')) == []
  {
    assert Split([], ' ') == [[]];
    assert NonEmpty([[]]) == NonEmpty([]) + [];
  }

  /** One step adds exactly the word (when non-empty) to the words held. */
  lemma WrapStepKeepsWords(st: WrapState, word: string, maxWidth: int)
    requires ' ' !in word
    ensures HeldWords(WrapStep(st, word, maxWidth)) == HeldWords(st) + NonEmpty([word])
  {
    var r := WrapStep(st, word, maxWidth);
    if |st.current| + |word| + 1 <= maxWidth {
      if st.current != [] {
        assert r == WrapState(st.lines, st.current + " " + word);
        ExtendLineWords(st.current, word);
      } else {
        assert r == WrapState(st.lines, word);
        NonEmptyOfEmptyLine();
        SplitWord(word, ' ');
      }
    } else {
      assert r == WrapState(st.lines + [st.current], word);
      CloseLineWords(st.lines, st.current);
      SplitWord(word, ' ');
    }
  }

  /** Extending a non-empty line by a space and a word adds that word. */
  lemma ExtendLineWords(current: string, word: string)
    requires ' ' !in word && current != []
    ensures NonEmpty(Split(current + " " + word, ' ')) == NonEmpty(Split(current, ' ')) + NonEmpty([word])
  {
    SplitWord(word, ' ');
    assert current + " " + word == current + [' '] + word;
    SplitAppend(current, word, ' ');
    NonEmptyAppend(Split(current, ' '), [word]);
  }

  /** Closing a line moves its words, unchanged, to the closed lines. */
  lemma CloseLineWords(lines: seq<string>, current: string)
    ensures NonEmpty(Words(lines + [current])) == NonEmpty(Words(lines)) + NonEmpty(Split(current, ' '))
  {
    WordsSnoc(lines, current);
    NonEmptyAppend(Words(lines), Split(current, ' '));
  }

  lemma AppendAssoc<T>(a: seq<T>, b: seq<T>, c: seq<T>)
    ensures (a + b) + c == a + (b + c)
  {
  }

  /** Folding adds the non-empty words, in order, to the words held. */
  lemma {:induction false} WrapWordsKeepsWords(st: WrapState, words: seq<string>, maxWidth: int)
    requires NoSpaces(words)
    ensures HeldWords(WrapWords(st, words, maxWidth)) == HeldWords(st) + NonEmpty(words)
    decreases |words|
  {
    if |words| > 0 {
      var first, rest := words[0], words[1..];
      var st' := WrapStep(st, first, maxWidth);
      var a, b, c := HeldWords(st), NonEmpty([first]), NonEmpty(rest);
      var end := WrapWords(st', rest, maxWidth);
      assert WrapWords(st, words, maxWidth) == end;
      assert HeldWords(st') == a + b by { WrapStepKeepsWords(st, first, maxWidth); }
      assert HeldWords(end) == HeldWords(st') + c by {
        NoSpacesTail(words);
        WrapWordsKeepsWords(st', rest, maxWidth);
      }
      assert NonEmpty(words) == b + c by {
        assert words == [first] + rest;
        NonEmptyAppend([first], rest);
      }
      AppendAssoc(a, b, c);
    }
  }

  lemma NoSpacesTail(words: seq<string>)
    requires NoSpaces(words) && |words| > 0
    ensures NoSpaces(words[1..])
  {
    forall i | 0 <= i < |words| - 1 ensures ' ' !in words[1..][i] { assert words[1..][i] == words[i + 1]; }
  }

  /** No word is split or lost: the output's non-empty words are the input's, in order. */
  lemma WrapTextKeepsWords(text: string, maxWidth: int)
    ensures NonEmpty(Words(WrapText(text, maxWidth))) == NonEmpty(Split(text, ' '))
  {
    var words := Split(text, ' ');
    var st := WrapWords(WrapState([], []), words, maxWidth);
    NonEmptyOfEmptyLine();
    assert HeldWords(WrapState([], [])) == [] by {
      assert Words([]) == [];
      assert NonEmpty([]) == [];
    }
    WrapWordsKeepsWords(WrapState([], []), words, maxWidth);
    assert HeldWords(st) == NonEmpty(words);
    if st.current != [] {
      WordsSnoc(st.lines, st.current);
      NonEmptyAppend(Words(st.lines), Split(st.current, ' '));
      assert WrapText(text, maxWidth) == st.lines + [st.current];
    } else {
      assert WrapText(text, maxWidth) == st.lines;
    }
  }

  /** A line longer than the width holds a single word (no space). */
  predicate LineFits(line: string, maxWidth: int) {
    ' ' in line ==> |line| <= maxWidth
  }

  /** Line a was closed because the first word of line b did not fit after it. */
  predicate ClosedBefore(a: string, b: string, maxWidth: int) {
    |a| + |Split(b, ' ')[0]| + 1 > maxWidth
  }

  predicate Greedy(lines: seq<string>, maxWidth: int) {
    forall i :: 0 <= i < |lines| - 1 ==> ClosedBefore(lines[i], lines[i + 1], maxWidth)
  }

  predicate WrapInvariant(st: WrapState, maxWidth: int) {
    && (forall i :: 0 <= i < |st.lines| ==> LineFits(st.lines[i], maxWidth))
    && LineFits(st.current, maxWidth)
    && Greedy(st.lines, maxWidth)
    && (|st.lines| > 0 ==> ClosedBefore(st.lines[|st.lines| - 1], st.current, maxWidth))
  }

  lemma WrapStepInvariant(st: WrapState, word: string, maxWidth: int)
    requires ' ' !in word && WrapInvariant(st, maxWidth)
    ensures WrapInvariant(WrapStep(st, word, maxWidth), maxWidth)
    ensures st.lines <= WrapStep(st, word, maxWidth).lines
  {
    SplitWord(word, ' ');
    var r := WrapStep(st, word, maxWidth);
    if |st.current| + |word| + 1 <= maxWidth {
      if st.current != [] {
        SplitAppend(st.current, word, ' ');
        assert r.current == st.current + [' '] + word;
        assert Split(r.current, ' ')[0] == Split(st.current, ' ')[0];
      } else {
        assert r.current == word;
        assert Split(st.current, ' ') == [[]];
      }
    } else {
      assert r.lines[..|st.lines|] == st.lines;
    }
  }

  lemma {:induction false} WrapWordsInvariant(st: WrapState, words: seq<string>, maxWidth: int)
    requires NoSpaces(words) && WrapInvariant(st, maxWidth)
    ensures WrapInvariant(WrapWords(st, words, maxWidth), maxWidth)
    ensures st.lines <= WrapWords(st, words, maxWidth).lines
    decreases |words|
  {
    if |words| > 0 {
      WrapStepInvariant(st, words[0], maxWidth);
      WrapWordsInvariant(WrapStep(st, words[0], maxWidth), words[1..], maxWidth);
    }
  }

  /**
   * Every output line that contains a space fits the width, and consecutive
   * lines are greedy: a line was closed only because the next line's first
   * word did not fit after it (length + word + 1 > width).
   */
  lemma WrapTextShape(text: string, maxWidth: int)
    ensures forall i :: 0 <= i < |WrapText(text, maxWidth)| ==> LineFits(WrapText(text, maxWidth)[i], maxWidth)
    ensures Greedy(WrapText(text, maxWidth), maxWidth)
  {
    var st := WrapWords(WrapState([], []), Split(text, ' '), maxWidth);
    WrapWordsInvariant(WrapState([], []), Split(text, ' '), maxWidth);
  }

  /** With a positive width, wrapping the empty text yields no line at all. */
  lemma WrapEmptyText(maxWidth: int)
    requires maxWidth >= 1
    ensures WrapText([], maxWidth) == []
  {
    assert Split([], ' ') == [[]];
    var st1 := WrapStep(WrapState([], []), [], maxWidth);
    assert st1 == WrapState([], []);
    assert WrapWords(WrapState([], []), [[]], maxWidth) == WrapWords(st1, [], maxWidth);
  }

  /** A first word that does not fit the width still closes the (empty) first line: the output starts with "". */
  lemma WrapLeadingEmptyLine(text: string, maxWidth: int)
    requires |Split(text, ' ')[0]| + 1 > maxWidth
    ensures |WrapText(text, maxWidth)| >= 1 && WrapText(text, maxWidth)[0] == []
  {
    var words := Split(text, ' ');
    var st1 := WrapStep(WrapState([], []), words[0], maxWidth);
    assert st1.lines == [[]];
    assert WrapInvariant(st1, maxWidth) by {
      SplitWord(words[0], ' ');
    }
    WrapWordsInvariant(st1, words[1..], maxWidth);
    assert WrapWords(WrapState([], []), words, maxWidth) == WrapWords(st1, words[1..], maxWidth);
  }
}
