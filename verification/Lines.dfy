/** Text as the lines between its line feeds. */
module Lines {
  /** One more character in front. */
  function Push(c: char, lines: seq<string>): (r: seq<string>)
    requires lines != []
    ensures r != []
  {
    if c == '\n' then [""] + lines else [[c] + lines[0]] + lines[1..]
  }

  /** The pieces between line feeds. */
  function Pieces(text: string): (lines: seq<string>)
    ensures lines != []
  {
    if text == "" then [""] else Push(text[0], Pieces(text[1..]))
  }

  lemma PushConcat(c: char, a: seq<string>, b: seq<string>)
    requires a != []
    ensures Push(c, a + b) == Push(c, a) + b
  {
  }

  lemma {:induction false} PiecesConcat(a: string, b: string)
    ensures Pieces(a + "\n" + b) == Pieces(a) + Pieces(b)
  {
    var text := a + "\n" + b;
    if a == "" {
      assert text[1..] == b;
    } else {
      assert text[1..] == a[1..] + "\n" + b;
      PiecesConcat(a[1..], b);
      PushConcat(a[0], Pieces(a[1..]), Pieces(b));
    }
  }

  lemma {:induction false} PiecesOfLine(line: string)
    requires '\n' !in line
    ensures Pieces(line) == [line]
  {
    if line != "" {
      PiecesOfLine(line[1..]);
      assert [line[0]] + line[1..] == line;
    }
  }

  lemma {:induction false} PiecesHaveNoBreaks(text: string)
    ensures forall i :: 0 <= i < |Pieces(text)| ==> '\n' !in Pieces(text)[i]
  {
    if text != "" { PiecesHaveNoBreaks(text[1..]); }
  }

  // ---------------------------------------------------------------- the lines the readers see

  /** The characters Python's `splitlines` ends a line at. */
  predicate IsBreak(c: char) {
    || '\n' <= c <= '\r' || '\U{1C}' <= c <= '\U{1E}' || c == '\U{85}' || c == '\U{2028}' || c == '\U{2029}'
  }

  function FirstBreak(text: string): (n: nat)
    ensures n <= |text| && (n < |text| ==> IsBreak(text[n])) && (forall i :: 0 <= i < n ==> !IsBreak(text[i]))
  {
    if text == "" || IsBreak(text[0]) then 0 else 1 + FirstBreak(text[1..])
  }

  /** `str.splitlines`: carriage return and line feed together are one break. */
  function SplitLines(text: string): (lines: seq<string>)
    decreases |text|
  {
    if text == "" then []
    else
      var n := FirstBreak(text);
      if n == |text| then [text]
      else
        var both := text[n] == '\r' && n + 1 < |text| && text[n + 1] == '\n';
        [text[..n]] + SplitLines(text[n + (if both then 2 else 1)..])
  }

  function FirstFeed(text: string): (n: nat)
    ensures n <= |text| && (n < |text| ==> text[n] == '\n')
  {
    if text == "" || text[0] == '\n' then 0 else 1 + FirstFeed(text[1..])
  }

  /** Rust's `str::lines`: a carriage return before the line feed belongs to the break. */
  function RustLines(text: string): (lines: seq<string>)
    decreases |text|
  {
    if text == "" then []
    else
      var n := FirstFeed(text);
      if n == |text| then [text]
      else [if n > 0 && text[n - 1] == '\r' then text[..n - 1] else text[..n]] + RustLines(text[n + 1..])
  }

  /** The line feed is the only break in the text. */
  ghost predicate OnlyFeeds(text: string) {
    forall i :: 0 <= i < |text| && IsBreak(text[i]) ==> text[i] == '\n'
  }

  lemma {:induction false} SameFirst(text: string)
    requires OnlyFeeds(text)
    ensures FirstBreak(text) == FirstFeed(text) && '\n' !in text[..FirstFeed(text)]
  {
    if text != "" && text[0] != '\n' {
      assert !IsBreak(text[0]);
      var rest := text[1..];
      FeedsBehind(text, 1);
      SameFirst(rest);
      assert text[..FirstFeed(text)] == [text[0]] + rest[..FirstFeed(rest)];
    }
  }

  lemma SplitStep(text: string, n: nat)
    requires n < |text| && n == FirstBreak(text) && text[n] == '\n'
    ensures SplitLines(text) == [text[..n]] + SplitLines(text[n + 1..])
  {
  }

  lemma RustStep(text: string, n: nat)
    requires n < |text| && n == FirstFeed(text) && (n > 0 ==> text[n - 1] != '\r')
    ensures RustLines(text) == [text[..n]] + RustLines(text[n + 1..])
  {
  }

  lemma PiecesStep(text: string, n: nat)
    requires n < |text| && text[n] == '\n' && '\n' !in text[..n]
    ensures Pieces(text) == [text[..n]] + Pieces(text[n + 1..])
  {
    assert text == text[..n] + "\n" + text[n + 1..];
    PiecesConcat(text[..n], text[n + 1..]);
    PiecesOfLine(text[..n]);
  }

  lemma FeedsBehind(text: string, n: nat)
    requires OnlyFeeds(text) && n <= |text|
    ensures OnlyFeeds(text[n..])
  {
    forall i | 0 <= i < |text[n..]| && IsBreak(text[n..][i]) ensures text[n..][i] == '\n' {
      assert text[n..][i] == text[n + i];
    }
  }

  /** The pieces are the lines, but for an empty piece behind the last line feed. */
  ghost predicate UpToBlank(pieces: seq<string>, lines: seq<string>) {
    pieces == lines || pieces == lines + [""]
  }

  lemma UpToBlankStep(line: string, pieces: seq<string>, lines: seq<string>)
    requires UpToBlank(pieces, lines)
    ensures UpToBlank([line] + pieces, [line] + lines)
  {
    assert [line] + (lines + [""]) == [line] + lines + [""];
  }

  /** Where the line feed is the only break, both see the pieces between line feeds, without an empty
      piece behind the last one. */
  lemma {:induction false} LinesArePieces(text: string)
    requires OnlyFeeds(text)
    ensures RustLines(text) == SplitLines(text) && UpToBlank(Pieces(text), SplitLines(text))
    decreases |text|
  {
    if text != "" {
      SameFirst(text);
      var n := FirstFeed(text);
      if n == |text| {
        assert text[..n] == text;
        PiecesOfLine(text);
      } else {
        assert IsBreak('\r');
        SplitStep(text, n);
        RustStep(text, n);
        PiecesStep(text, n);
        FeedsBehind(text, n + 1);
        LinesArePieces(text[n + 1..]);
        UpToBlankStep(text[..n], Pieces(text[n + 1..]), SplitLines(text[n + 1..]));
      }
    }
  }
}
