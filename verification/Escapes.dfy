/** The escape of workflow annotations: percent-encoded breaks and percent signs. */
module Escapes {
  import opened Optional

  // ---------------------------------------------------------------- annotations

  /** `text.replace(c, with)` for a single character. */
  function Replace(text: string, c: char, with: string): (r: string)
  {
    if text == "" then "" else (if text[0] == c then with else [text[0]]) + Replace(text[1..], c, with)
  }

  function Annotation(text: string): (r: string)
  {
    Replace(Replace(Replace(text, '%', "%25"), '\r', "%0D"), '\n', "%0A")
  }

  /** What one character becomes. */
  function Escape(c: char): (r: string)
    ensures r != ""
  {
    if c == '%' then "%25" else if c == '\r' then "%0D" else if c == '\n' then "%0A" else [c]
  }

  function EscapeAll(text: string): (r: string)
  {
    if text == "" then "" else Escape(text[0]) + EscapeAll(text[1..])
  }

  /** The inverse: a percent sign stands with the two characters behind it. */
  function Unescape(text: string): (r: Option<string>)
  {
    if text == "" then Some("")
    else if text[0] != '%' then
      (match Unescape(text[1..]) case None => None case Some(rest) => Some([text[0]] + rest))
    else if |text| < 3 then None
    else
      var c := if text[1..3] == "25" then Some('%') else if text[1..3] == "0D" then Some('\r')
               else if text[1..3] == "0A" then Some('\n') else None;
      match Unescape(text[3..]) case None => None
      case Some(rest) => if c.None? then None else Some([c.value] + rest)
  }

  lemma {:induction false} ReplaceConcat(a: string, b: string, c: char, with: string)
    ensures Replace(a + b, c, with) == Replace(a, c, with) + Replace(b, c, with)
  {
    if a == "" {
      assert a + b == b;
    } else {
      assert (a + b)[1..] == a[1..] + b;
      ReplaceConcat(a[1..], b, c, with);
    }
  }

  lemma {:induction false} ReplaceAbsent(text: string, c: char, with: string)
    requires c !in text
    ensures Replace(text, c, with) == text
  {
    if text != "" { ReplaceAbsent(text[1..], c, with); }
  }

  lemma EscapedOne(c: char)
    ensures Annotation([c]) == Escape(c)
  {
    assert [c][1..] == "";
    assert Replace([c], '%', "%25") == if c == '%' then "%25" else [c];
    if c == '%' {
      ReplaceAbsent("%25", '\r', "%0D");
      ReplaceAbsent("%25", '\n', "%0A");
    } else if c == '\r' {
      assert Replace([c], '\r', "%0D") == "%0D";
      ReplaceAbsent("%0D", '\n', "%0A");
    } else {
      ReplaceAbsent([c], '\r', "%0D");
      assert Replace([c], '\n', "%0A") == if c == '\n' then "%0A" else [c];
    }
  }

  /** Replacing one character after another is a map from characters to their escapes. */
  lemma {:induction false} AnnotationIsPerCharacter(text: string)
    ensures Annotation(text) == EscapeAll(text)
  {
    if text != "" {
      var head, tail := [text[0]], text[1..];
      assert text == head + tail;
      ReplaceConcat(head, tail, '%', "%25");
      ReplaceConcat(Replace(head, '%', "%25"), Replace(tail, '%', "%25"), '\r', "%0D");
      ReplaceConcat(Replace(Replace(head, '%', "%25"), '\r', "%0D"), Replace(Replace(tail, '%', "%25"), '\r', "%0D"),
        '\n', "%0A");
      EscapedOne(text[0]);
      AnnotationIsPerCharacter(tail);
    }
  }

  lemma {:induction false} UnescapeEscaped(text: string)
    ensures Unescape(EscapeAll(text)) == Some(text)
  {
    if text != "" {
      UnescapeEscaped(text[1..]);
      var e, rest := Escape(text[0]), EscapeAll(text[1..]);
      assert (e + rest)[|e|..] == rest;
      assert (e + rest)[..|e|] == e;
      assert |e| == 3 ==> (e + rest)[1..3] == e[1..3];
      assert text == [text[0]] + text[1..];
    }
  }

  lemma {:induction false} EscapedHasNoBreaks(text: string)
    ensures '\r' !in EscapeAll(text) && '\n' !in EscapeAll(text)
  {
    if text != "" { EscapedHasNoBreaks(text[1..]); }
  }

  /** An annotation stays on one line and can be read back, so no two texts share one. */
  lemma AnnotationIsDecodable(text: string)
    ensures Unescape(Annotation(text)) == Some(text)
    ensures '\r' !in Annotation(text) && '\n' !in Annotation(text)
  {
    AnnotationIsPerCharacter(text);
    UnescapeEscaped(text);
    EscapedHasNoBreaks(text);
  }
}
