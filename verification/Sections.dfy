/** The line scanner of the pull-request description check: code fences (section 4.5 of CommonMark 0.31),
    level-two headings (section 4.2) and the buckets of lines between them. */
module Sections {
  import opened Optional

  const NAMES: seq<string> :=
    ["TLDR", "Problem", "Consequences", "Example", "Solution", "Gain", "Tradeoffs", "Validation"]
  const PLACEHOLDERS: set<string> := {"todo", "tbd", "na", "none", "placeholder"}
  const DEPENDABOT := "dependabot[bot]"

  // ---------------------------------------------------------------- one line

  /** White space as the pattern language and `strip` see it. */
  predicate IsSpace(c: char) {
    var n := c as int;
    || 9 <= n <= 13 || 28 <= n <= 32 || n == 0x85 || n == 0xA0 || n == 0x1680 || 0x2000 <= n <= 0x200A
    || n == 0x2028 || n == 0x2029 || n == 0x202F || n == 0x205F || n == 0x3000
  }

  /** The number of characters `c` the text begins with. */
  function RunOf(s: string, c: char): (n: nat)
    ensures n <= |s| && (n < |s| ==> s[n] != c)
  {
    if s == "" || s[0] != c then 0 else 1 + RunOf(s[1..], c)
  }

  /** The number of white-space characters the text begins with. */
  function Spaces(s: string): (n: nat)
    ensures n <= |s| && (n < |s| ==> !IsSpace(s[n]))
  {
    if s == "" || !IsSpace(s[0]) then 0 else 1 + Spaces(s[1..])
  }

  predicate IsBlank(s: string) {
    Spaces(s) == |s|
  }

  datatype Fence = Fence(character: char, length: nat, suffix: string)

  /** Up to three spaces, then at least three backticks or tildes. */
  function FenceOf(line: string): (f: Option<Fence>)
  {
    var k := RunOf(line, ' ');
    if k > 3 || k == |line| then None
    else
      var rest := line[k..];
      var c := rest[0];
      var n := RunOf(rest, c);
      if (c == '`' || c == '~') && n >= 3 then Some(Fence(c, n, rest[n..])) else None
  }

  /** White space, number signs, white space: what may close a heading. */
  predicate IsTail(s: string) {
    var t := s[Spaces(s)..];
    IsBlank(t[RunOf(t, '#')..])
  }

  /** Where a closing sequence may begin. */
  function Tails(s: string): (at: nat -> bool)
  {
    (i: nat) => i <= |s| && IsTail(s[i..])
  }

  /** The first place from `n` on that satisfies `at`, or `limit`. */
  function First(at: nat -> bool, n: nat, limit: nat): (k: nat)
    requires n <= limit
    ensures n <= k <= limit && (k < limit ==> at(k))
    ensures forall i :: n <= i < k ==> !at(i)
    decreases limit - n
  {
    if n == limit || at(n) then n else First(at, n + 1, limit)
  }

  /** The shortest nonempty prefix that leaves only a closing sequence. */
  function Shortest(rest: string): (name: string)
    requires rest != ""
  {
    rest[..First(Tails(rest), 1, |rest|)]
  }

  /** The name after the two number signs and white space: as short as a closing sequence behind it
      allows. If there is only white space, the last character of it is the name. */
  function NameIn(text: string): (name: Option<string>)
  {
    var w := Spaces(text);
    if w == 0 then None
    else if w == |text| then (if w == 1 then None else Some(text[w - 1..]))
    else Some(Shortest(text[w..]))
  }

  /** Up to three spaces, two number signs, white space, a name. */
  function HeadingOf(line: string): (name: Option<string>)
  {
    var k := RunOf(line, ' ');
    if k > 3 || !("##" <= line[k..]) then None else NameIn(line[k + 2..])
  }

  // ---------------------------------------------------------------- the scanner

  datatype State = Closed | Open(character: char, length: nat)

  /** What a fence line does: opens when none is open, closes one of its own character and at most its
      length if nothing else is on the line. */
  function AfterFence(state: State, f: Fence): (next: State)
  {
    match state
    case Closed => Open(f.character, f.length)
    case Open(c, n) => if f.character == c && f.length >= n && IsBlank(f.suffix) then Closed else state
  }

  function AfterLine(state: State, line: string): (next: State)
  {
    if FenceOf(line).Some? then AfterFence(state, FenceOf(line).value) else state
  }

  /** The fence state after all the lines. */
  function FenceState(lines: seq<string>): (state: State)
  {
    if lines == [] then Closed else AfterLine(FenceState(lines[..|lines| - 1]), lines[|lines| - 1])
  }

  /** The heading a line is, given the fence state before it. */
  function HeadingIn(state: State, line: string): (name: Option<string>)
  {
    if FenceOf(line).Some? || state.Open? then None else HeadingOf(line)
  }

  datatype Section = Section(name: string, lines: seq<string>)

  datatype Scanned = Scanned(preamble: seq<string>, sections: seq<Section>)

  function AddLine(s: Scanned, line: string): (t: Scanned)
  {
    if s.sections == [] then s.(preamble := s.preamble + [line])
    else
      var n := |s.sections| - 1;
      s.(sections := s.sections[n := s.sections[n].(lines := s.sections[n].lines + [line])])
  }

  function AddHeading(s: Scanned, name: string): (t: Scanned)
  {
    s.(sections := s.sections + [Section(name, [])])
  }

  function Scan(lines: seq<string>): (s: Scanned)
  {
    if lines == [] then Scanned([], [])
    else
      var n := |lines| - 1;
      var before := Scan(lines[..n]);
      match HeadingIn(FenceState(lines[..n]), lines[n])
      case Some(name) => AddHeading(before, name)
      case None => AddLine(before, lines[n])
  }

  /** The loop: one pass over the lines, with the fence it is in. */
  method ScanLines(lines: seq<string>) returns (s: Scanned, state: State)
    ensures s == Scan(lines) && state == FenceState(lines)
  {
    s, state := Scanned([], []), Closed;
    for i := 0 to |lines|
      invariant s == Scan(lines[..i]) && state == FenceState(lines[..i])
    {
      assert lines[..i + 1][..i] == lines[..i];
      var fence := FenceOf(lines[i]);
      if fence.Some? {
        if state == Closed {
          state := Open(fence.value.character, fence.value.length);
        } else if fence.value.character == state.character && fence.value.length >= state.length
                  && IsBlank(fence.value.suffix)
        {
          state := Closed;
        }
        s := AddLine(s, lines[i]);
      } else {
        var heading := if state == Closed then HeadingOf(lines[i]) else None;
        if heading.Some? {
          s := AddHeading(s, heading.value);
        } else {
          s := AddLine(s, lines[i]);
        }
      }
    }
    assert lines[..|lines|] == lines;
  }

  // ---------------------------------------------------------------- nothing is lost

  datatype Item = Heading(name: string) | Line(text: string)

  ghost function Texts(lines: seq<string>): (items: seq<Item>)
    ensures |items| == |lines| && forall i :: 0 <= i < |lines| ==> items[i] == Line(lines[i])
  {
    seq(|lines|, i requires 0 <= i < |lines| => Line(lines[i]))
  }

  /** Headings and buckets put back in order. */
  ghost function Unfold(sections: seq<Section>): (items: seq<Item>)
  {
    if sections == [] then []
    else
      var last := sections[|sections| - 1];
      Unfold(sections[..|sections| - 1]) + [Heading(last.name)] + Texts(last.lines)
  }

  ghost function Interleaved(s: Scanned): (items: seq<Item>)
  {
    Texts(s.preamble) + Unfold(s.sections)
  }

  /** What a line is, from the lines before it alone. */
  ghost function ItemAt(lines: seq<string>, i: nat): (item: Item)
    requires i < |lines|
  {
    match HeadingIn(FenceState(lines[..i]), lines[i])
    case Some(name) => Heading(name)
    case None => Line(lines[i])
  }

  lemma UnfoldHeading(sections: seq<Section>, name: string)
    ensures Unfold(sections + [Section(name, [])]) == Unfold(sections) + [Heading(name)]
  {
    assert (sections + [Section(name, [])])[..|sections|] == sections;
  }

  lemma InterleavedLine(s: Scanned, line: string)
    ensures Interleaved(AddLine(s, line)) == Interleaved(s) + [Line(line)]
  {
    if s.sections == [] {
      assert Texts(s.preamble + [line]) == Texts(s.preamble) + [Line(line)];
    } else {
      var n := |s.sections| - 1;
      var last := s.sections[n];
      var t := AddLine(s, line).sections;
      assert t[..n] == s.sections[..n];
      assert Texts(last.lines + [line]) == Texts(last.lines) + [Line(line)];
    }
  }

  ghost function Items(lines: seq<string>): (items: seq<Item>)
    ensures |items| == |lines|
  {
    if lines == [] then [] else Items(lines[..|lines| - 1]) + [ItemAt(lines, |lines| - 1)]
  }

  lemma {:induction false} ScanIsItems(lines: seq<string>)
    ensures Interleaved(Scan(lines)) == Items(lines)
  {
    if lines != [] {
      var n := |lines| - 1;
      ScanIsItems(lines[..n]);
      var before := Scan(lines[..n]);
      if HeadingIn(FenceState(lines[..n]), lines[n]).Some? {
        UnfoldHeading(before.sections, HeadingIn(FenceState(lines[..n]), lines[n]).value);
      } else {
        InterleavedLine(before, lines[n]);
      }
    }
  }

  lemma {:induction false} ItemsAt(lines: seq<string>, i: nat)
    requires i < |lines|
    ensures Items(lines)[i] == ItemAt(lines, i)
  {
    var n := |lines| - 1;
    ItemsStep(lines, Items(lines[..n]), i);
    if i < n {
      ItemsAt(lines[..n], i);
      ItemAtPrefix(lines, n, i);
    }
  }

  lemma ItemsStep(lines: seq<string>, before: seq<Item>, i: nat)
    requires i < |lines| && before == Items(lines[..|lines| - 1])
    ensures Items(lines)[i] == if i < |lines| - 1 then before[i] else ItemAt(lines, i)
  {
  }

  lemma ItemAtPrefix(lines: seq<string>, n: nat, i: nat)
    requires i < n <= |lines|
    ensures ItemAt(lines[..n], i) == ItemAt(lines, i)
  {
    assert lines[..n][..i] == lines[..i];
  }

  /** Every line is in exactly one place, in order: headings and buckets re-interleave to the body. */
  lemma EveryLineHasItsPlace(lines: seq<string>)
    ensures |Interleaved(Scan(lines))| == |lines|
    ensures forall i :: 0 <= i < |lines| ==> Interleaved(Scan(lines))[i] == ItemAt(lines, i)
  {
    ScanIsItems(lines);
    forall i | 0 <= i < |lines| ensures Items(lines)[i] == ItemAt(lines, i) { ItemsAt(lines, i); }
  }

  // ---------------------------------------------------------------- fences

  /** Line `j` opens a fence that no line up to `end` closes. */
  ghost predicate Encloses(lines: seq<string>, j: nat, end: nat)
    requires j < end <= |lines|
  {
    && FenceOf(lines[j]).Some? && FenceState(lines[..j]).Closed?
    && var f := FenceOf(lines[j]).value;
    forall k :: j < k < end ==> !Closes(f, lines[k])
  }

  /** A line that ends the fence `f` opened. */
  ghost predicate Closes(f: Fence, line: string) {
    && FenceOf(line).Some?
    && var g := FenceOf(line).value;
    g.character == f.character && g.length >= f.length && IsBlank(g.suffix)
  }

  lemma {:induction false} EnclosedIsOpen(lines: seq<string>, j: nat, end: nat)
    requires j < end <= |lines| && Encloses(lines, j, end)
    ensures FenceState(lines[..end]) == Open(FenceOf(lines[j]).value.character, FenceOf(lines[j]).value.length)
  {
    assert lines[..end][..end - 1] == lines[..end - 1];
    if end > j + 1 {
      EnclosedIsOpen(lines, j, end - 1);
    }
  }

  lemma {:induction false} OpenIsEnclosed(lines: seq<string>, end: nat) returns (j: nat)
    requires end <= |lines| && FenceState(lines[..end]).Open?
    ensures j < end && Encloses(lines, j, end)
  {
    assert lines[..end][..end - 1] == lines[..end - 1];
    if FenceState(lines[..end - 1]).Open? {
      j := OpenIsEnclosed(lines, end - 1);
      EnclosedIsOpen(lines, j, end - 1);
    } else {
      j := end - 1;
    }
  }

  /** No heading is recognised inside an open fence: no line before it opened one that is still open. */
  lemma NoHeadingInFence(lines: seq<string>, i: nat)
    requires i < |lines| && ItemAt(lines, i).Heading?
    ensures forall j :: 0 <= j < i ==> !Encloses(lines, j, i)
  {
    forall j | 0 <= j < i ensures !Encloses(lines, j, i) {
      if Encloses(lines, j, i) { EnclosedIsOpen(lines, j, i); }
    }
  }

  // ---------------------------------------------------------------- the checks

  function StripRight(s: string): (t: string)
  {
    if s != "" && IsSpace(s[|s| - 1]) then StripRight(s[..|s| - 1]) else s
  }

  function Strip(s: string): (t: string)
  {
    StripRight(s[Spaces(s)..])
  }

  predicate IsTypeCharacter(c: char) {
    'a' <= c <= 'z' || '0' <= c <= '9' || c == '-'
  }

  function TypeLength(s: string): (n: nat)
    ensures n <= |s|
  {
    if s == "" || !IsTypeCharacter(s[0]) then 0 else 1 + TypeLength(s[1..])
  }

  /** A lower-case type, a colon and a space, then an outcome on the same line. */
  predicate IsTitle(title: string) {
    var n := TypeLength(title);
    && n > 0 && 'a' <= title[0] <= 'z'
    && ": " <= title[n..]
    && |title| > n + 2 && !IsSpace(title[n + 2]) && '\n' !in title[n + 2..]
  }

  function Joined(lines: seq<string>): (text: string)
  {
    if lines == [] then ""
    else if |lines| == 1 then lines[0]
    else lines[0] + "\n" + Joined(lines[1..])
  }

  function WithoutFences(lines: seq<string>): (rest: seq<string>)
  {
    if lines == [] then []
    else if FenceOf(lines[0]).Some? then WithoutFences(lines[1..])
    else [lines[0]] + WithoutFences(lines[1..])
  }

  /** `words` folds the case and drops everything but letters and digits. */
  predicate HasContent(words: string -> string, section: Section) {
    var text := words(Joined(WithoutFences(section.lines)));
    text != "" && text !in PLACEHOLDERS
  }

  datatype Problem = BadTitle | NoBody | WrongHeadings | TextBeforeHeadings | OpenFence | NeedsContent(name: string)

  ghost predicate NamesAre(sections: seq<Section>, names: seq<string>) {
    |sections| == |names| && forall i :: 0 <= i < |names| ==> sections[i].name == names[i]
  }

  /** A description with the eight sections in order, each with content, nothing before them and every
      fence closed. */
  ghost predicate IsDescription(words: string -> string, lines: seq<string>) {
    var s := Scan(lines);
    && NamesAre(s.sections, NAMES)
    && (forall i :: 0 <= i < |s.preamble| ==> IsBlank(s.preamble[i]))
    && FenceState(lines).Closed?
    && (forall i :: 0 <= i < |s.sections| ==> HasContent(words, s.sections[i]))
  }

  method CheckNames(sections: seq<Section>) returns (ok: bool)
    ensures ok <==> NamesAre(sections, NAMES)
  {
    if |sections| != |NAMES| {
      return false;
    }
    for i := 0 to |sections|
      invariant forall j :: 0 <= j < i ==> sections[j].name == NAMES[j]
    {
      if sections[i].name != NAMES[i] {
        return false;
      }
    }
    return true;
  }

  method AnyText(lines: seq<string>) returns (found: bool)
    ensures found <==> exists i :: 0 <= i < |lines| && !IsBlank(lines[i])
  {
    for i := 0 to |lines|
      invariant forall j :: 0 <= j < i ==> IsBlank(lines[j])
    {
      if !IsBlank(lines[i]) {
        return true;
      }
    }
    return false;
  }

  method CheckContents(words: string -> string, sections: seq<Section>) returns (problems: seq<Problem>)
    ensures problems == [] <==> forall i :: 0 <= i < |sections| && sections[i].name in NAMES ==>
                                  HasContent(words, sections[i])
  {
    problems := [];
    for i := 0 to |sections|
      invariant problems == [] <==> forall j :: 0 <= j < i && sections[j].name in NAMES ==>
                                      HasContent(words, sections[j])
    {
      if sections[i].name in NAMES && !HasContent(words, sections[i]) {
        problems := problems + [NeedsContent(sections[i].name)];
      }
    }
  }

  /** The body is given as its lines once comments are taken out; None when it is missing or blank. There
      is no problem exactly when the title is one and, except for Dependabot, the body is a description. */
  method ValidateDescription(words: string -> string, title: Option<string>, body: Option<seq<string>>, author: string)
    returns (problems: seq<Problem>)
    ensures problems == [] <==>
              && title.Some? && IsTitle(Strip(title.value))
              && (author == DEPENDABOT || (body.Some? && IsDescription(words, body.value)))
  {
    problems := if title.Some? && IsTitle(Strip(title.value)) then [] else [BadTitle];
    if author == DEPENDABOT {
      return;
    }
    if body.None? {
      return problems + [NoBody];
    }
    var s, state := ScanLines(body.value);
    var named := CheckNames(s.sections);
    if !named {
      problems := problems + [WrongHeadings];
    }
    var text := AnyText(s.preamble);
    if text {
      problems := problems + [TextBeforeHeadings];
    }
    if state != Closed {
      problems := problems + [OpenFence];
    }
    var contents := CheckContents(words, s.sections);
    assert named ==> forall i :: 0 <= i < |s.sections| ==> s.sections[i].name in NAMES;
    problems := problems + contents;
  }

  // ---------------------------------------------------------------- headings read back

  /** A name that does not begin with white space and has no closing sequence of its own. */
  ghost predicate IsName(name: string) {
    name != "" && !IsSpace(name[0]) && forall i :: 1 <= i < |name| ==> !Tails(name)(i)
  }

  lemma HeadingText(name: string)
    ensures HeadingOf("## " + name) == NameIn(" " + name)
  {
    var line := "## " + name;
    assert RunOf(line, ' ') == 0;
    assert line[0..] == line && "##" <= line && line[2..] == " " + name;
  }

  /** A printed heading reads back as its name just for such names, and for one white-space character. */
  lemma HeadingReadsBack(name: string)
    ensures HeadingOf("## " + name) == Some(name) <==> IsName(name) || (|name| == 1 && IsSpace(name[0]))
  {
    HeadingText(name);
    if name != "" && !IsSpace(name[0]) {
      PlainReadsBack(name);
    } else {
      SpacedReadsBack(name);
    }
  }

  /** What `NameIn` finds when something other than white space follows. */
  lemma NameAfterSpaces(text: string, rest: string, w: nat)
    requires w == Spaces(text) && 0 < w < |text| && rest == text[w..]
    ensures NameIn(text) == Some(Shortest(rest))
    ensures !IsSpace(Shortest(rest)[0])
  {
  }

  lemma PlainReadsBack(name: string)
    requires name != "" && !IsSpace(name[0])
    ensures NameIn(" " + name) == Some(name) <==> IsName(name)
  {
    var text := " " + name;
    assert text[1..] == name && Spaces(text) == 1;
    NameAfterSpaces(text, name, 1);
    var k := First(Tails(name), 1, |name|);
    assert name[..k] == name <==> k == |name|;
  }

  lemma SpacedReadsBack(name: string)
    requires name == "" || IsSpace(name[0])
    ensures NameIn(" " + name) == Some(name) <==> |name| == 1
  {
    var text := " " + name;
    assert text[1..] == name;
    var w := Spaces(text);
    assert w == 1 + Spaces(name);
    if w == |text| {
      BlankText(text, w);
      assert name != "" ==> text[w - 1..] == [name[|name| - 1]];
    } else {
      NameAfterSpaces(text, text[w..], w);
    }
  }

  lemma BlankText(text: string, w: nat)
    requires w == Spaces(text) == |text| && w > 0
    ensures NameIn(text) == if w == 1 then None else Some(text[w - 1..])
  {
  }

  // ---------------------------------------------------------------- a description reads back

  /** Lines without a heading of their own that leave no fence open. */
  ghost predicate Quiet(lines: seq<string>) {
    FenceState(lines).Closed? && NoHeading(lines)
  }

  ghost predicate NoHeading(lines: seq<string>) {
    lines == [] ||
    (var n := |lines| - 1; NoHeading(lines[..n]) && HeadingIn(FenceState(lines[..n]), lines[n]).None?)
  }

  function PrintSections(sections: seq<Section>): (lines: seq<string>)
  {
    if sections == [] then []
    else
      var last := sections[|sections| - 1];
      PrintSections(sections[..|sections| - 1]) + ["## " + last.name] + last.lines
  }

  function Print(s: Scanned): (lines: seq<string>)
  {
    s.preamble + PrintSections(s.sections)
  }

  ghost predicate IsSection(section: Section) {
    IsName(section.name) && Quiet(section.lines)
  }

  ghost predicate IsPrintable(s: Scanned) {
    Quiet(s.preamble) && forall i :: 0 <= i < |s.sections| ==> IsSection(s.sections[i])
  }

  function AddLines(s: Scanned, lines: seq<string>): (t: Scanned)
  {
    if lines == [] then s else AddLine(AddLines(s, lines[..|lines| - 1]), lines[|lines| - 1])
  }

  lemma {:induction false} AddToPreamble(s: Scanned, lines: seq<string>)
    requires s.sections == []
    ensures AddLines(s, lines) == Scanned(s.preamble + lines, [])
  {
    if lines == [] {
      assert s.preamble + lines == s.preamble;
    } else {
      var n := |lines| - 1;
      AddToPreamble(s, lines[..n]);
      assert s.preamble + lines[..n] + [lines[n]] == s.preamble + lines;
    }
  }

  lemma {:induction false} AddToSection(s: Scanned, name: string, lines: seq<string>)
    ensures AddLines(AddHeading(s, name), lines) == s.(sections := s.sections + [Section(name, lines)])
  {
    if lines != [] {
      var n := |lines| - 1;
      AddToSection(s, name, lines[..n]);
      assert lines[..n] + [lines[n]] == lines;
      var before := s.sections + [Section(name, lines[..n])];
      assert before[|before| - 1 := Section(name, lines)] == s.sections + [Section(name, lines)];
    }
  }

  lemma {:induction false} FenceConcat(a: seq<string>, b: seq<string>)
    requires FenceState(a).Closed?
    ensures FenceState(a + b) == FenceState(b)
  {
    if b == [] {
      assert a + b == a;
    } else {
      assert (a + b)[..|a + b| - 1] == a + b[..|b| - 1];
      FenceConcat(a, b[..|b| - 1]);
    }
  }

  lemma {:induction false} ScanConcat(a: seq<string>, b: seq<string>)
    requires FenceState(a).Closed? && NoHeading(b)
    ensures Scan(a + b) == AddLines(Scan(a), b)
  {
    if b == [] {
      assert a + b == a;
    } else {
      var n := |b| - 1;
      assert (a + b)[..|a + b| - 1] == a + b[..n];
      FenceConcat(a, b[..n]);
      ScanConcat(a, b[..n]);
    }
  }

  lemma ScanHeading(lines: seq<string>, name: string)
    requires FenceState(lines).Closed? && IsName(name)
    ensures Scan(lines + ["## " + name]) == AddHeading(Scan(lines), name)
    ensures FenceState(lines + ["## " + name]).Closed?
  {
    var all := lines + ["## " + name];
    assert all[..|lines|] == lines;
    HeadingReadsBack(name);
    assert RunOf("## " + name, ' ') == 0;
    assert FenceOf("## " + name).None?;
  }

  ghost predicate ReadsBack(lines: seq<string>, s: Scanned) {
    Scan(lines) == s && FenceState(lines).Closed?
  }

  lemma SectionReadsBack(printed: seq<string>, before: Scanned, last: Section)
    requires ReadsBack(printed, before) && IsSection(last)
    ensures ReadsBack(printed + ["## " + last.name] + last.lines, before.(sections := before.sections + [last]))
  {
    ScanHeading(printed, last.name);
    var headed := printed + ["## " + last.name];
    FenceConcat(headed, last.lines);
    ScanConcat(headed, last.lines);
    AddToSection(before, last.name, last.lines);
  }

  lemma PreambleReadsBack(preamble: seq<string>)
    requires Quiet(preamble)
    ensures ReadsBack(preamble, Scanned(preamble, []))
  {
    assert [] + preamble == preamble;
    ScanConcat([], preamble);
    AddToPreamble(Scanned([], []), preamble);
  }

  /** Printing sections and scanning the result gives them back, whatever fences and would-be headings
      their lines hold. */
  lemma {:induction false} PrintReadsBack(s: Scanned)
    requires IsPrintable(s)
    ensures ReadsBack(Print(s), s)
    decreases |s.sections|
  {
    if s.sections == [] {
      assert Print(s) == s.preamble;
      PreambleReadsBack(s.preamble);
    } else {
      var n := |s.sections| - 1;
      var before := s.(sections := s.sections[..n]);
      PrintReadsBack(before);
      SectionReadsBack(Print(before), before, s.sections[n]);
      assert Print(s) == Print(before) + ["## " + s.sections[n].name] + s.sections[n].lines;
      assert s.sections[..n] + [s.sections[n]] == s.sections;
    }
  }
}
