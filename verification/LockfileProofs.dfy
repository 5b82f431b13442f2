/** Both readers find the printed version of a package that is locked once. */
module LockfileProofs {
  import opened Lines
  import opened Lockfile
  import opened Optional

  // ---------------------------------------------------------------- sections

  /** No header can begin in the text, even if brackets follow it. */
  ghost predicate Clean(text: string) {
    && (forall i :: 0 <= i < |text| - 1 && text[i] == '[' ==> text[i + 1] != '[')
    && (text != "" ==> text[|text| - 1] != '[')
  }

  lemma {:induction false} SplitClean(a: string, rest: string)
    requires Clean(a) && (rest == "" || HEADER <= rest)
    ensures Split(a + rest) == [a] + Split(rest)[1..] && Split(rest)[0] == ""
  {
    if a == "" {
      assert a + rest == rest;
    } else {
      var text := a + rest;
      assert text[1..] == a[1..] + rest;
      CleanRest(a);
      SplitClean(a[1..], rest);
      assert HEADER[0] == '[' && HEADER[1] == '[';
      assert !(HEADER <= text);
      assert [a[0]] + a[1..] == a;
    }
  }

  lemma CleanRest(a: string)
    requires Clean(a) && a != ""
    ensures Clean(a[1..])
  {
    forall i | 0 <= i < |a[1..]| - 1 && a[1..][i] == '[' ensures a[1..][i + 1] != '[' {
      assert a[i + 1] == '[';
    }
  }

  lemma CleanJoin(a: string, b: string)
    requires Clean(a) && Clean(b)
    ensures Clean(a + b)
  {
  }

  lemma NoBracketIsClean(a: string)
    requires '[' !in a
    ensures Clean(a)
  {
  }

  /** A line may end in a bracket, since a line feed follows it. */
  ghost predicate CleanLine(line: string) {
    Clean(line + "\n") && NoBreaks(line)
  }

  lemma {:induction false} UnlinesClean(lines: seq<string>)
    requires forall i :: 0 <= i < |lines| ==> CleanLine(lines[i])
    ensures Clean(Unlines(lines))
  {
    if lines != [] {
      UnlinesClean(lines[1..]);
      CleanJoin(lines[0] + "\n", Unlines(lines[1..]));
    }
  }

  ghost function Body(p: Package, gap: seq<string>): (text: string)
  {
    "\n" + Unlines(EntryLines(p, gap))
  }

  /** What may follow an entry: a blank line, or nothing. */
  ghost predicate IsGap(gap: seq<string>) {
    gap == [] || gap == [""]
  }

  ghost function Bodies(packages: seq<Package>): (texts: seq<string>)
    ensures |texts| == |packages|
  {
    if packages == [] then [] else [Body(packages[0], Gap(packages))] + Bodies(packages[1..])
  }

  lemma PlainLine(line: string)
    requires '[' !in line && NoBreaks(line)
    ensures CleanLine(line)
  {
  }

  lemma FieldLineIsClean(key: string, value: string)
    requires IsValue(key) && IsValue(value)
    ensures CleanLine(FieldLine(key, value))
  {
    PlainLine(FieldLine(key, value));
  }

  lemma {:induction false} DependenciesAreClean(dependencies: seq<string>)
    requires forall i :: 0 <= i < |dependencies| ==> IsValue(dependencies[i])
    ensures forall i :: 0 <= i < |DependencyLines(dependencies)| ==> CleanLine(DependencyLines(dependencies)[i])
  {
    if dependencies != [] {
      PlainLine(" \"" + dependencies[0] + "\",");
      DependenciesAreClean(dependencies[1..]);
    }
  }

  ghost predicate AllClean(lines: seq<string>) {
    forall i :: 0 <= i < |lines| ==> CleanLine(lines[i])
  }

  lemma TailIsClean(p: Package, gap: seq<string>)
    requires IsEntry(p) && IsGap(gap)
    ensures AllClean(Tail(p, gap))
  {
    DependenciesAreClean(p.dependencies);
    assert CleanLine("dependencies = [");
    PlainLine("]");
    PlainLine("");
  }

  lemma OptionalIsClean(key: string, value: Option<string>)
    requires IsValue(key) && (value.Some? ==> IsValue(value.value))
    ensures AllClean(OptionalLine(key, value))
  {
    if value.Some? { FieldLineIsClean(key, value.value); }
  }

  lemma EntryIsClean(p: Package, gap: seq<string>)
    requires IsEntry(p) && IsGap(gap)
    ensures AllClean(EntryLines(p, gap))
  {
    FieldLineIsClean("name", p.name);
    FieldLineIsClean("version", p.version);
    OptionalIsClean("source", p.source);
    OptionalIsClean("checksum", p.checksum);
    TailIsClean(p, gap);
  }

  lemma BodyIsClean(p: Package, gap: seq<string>)
    requires IsEntry(p) && IsGap(gap)
    ensures Clean(Body(p, gap))
  {
    EntryIsClean(p, gap);
    UnlinesClean(EntryLines(p, gap));
    NoBracketIsClean("\n");
    CleanJoin("\n", Unlines(EntryLines(p, gap)));
  }

  lemma SplitHeader(rest: string)
    ensures Split(HEADER + rest) == [""] + Split(rest)
  {
    assert (HEADER + rest)[|HEADER|..] == rest;
  }

  ghost predicate AreEntries(packages: seq<Package>) {
    forall i :: 0 <= i < |packages| ==> IsEntry(packages[i])
  }

  /** The text after the first header splits into its body and the rest. */
  lemma SplitEntry(body: string, more: string, bodies: seq<string>)
    requires Clean(body) && (more == "" || HEADER <= more) && Split(more) == [""] + bodies
    ensures Split(HEADER + (body + more)) == [""] + ([body] + bodies)
  {
    SplitHeader(body + more);
    SplitClean(body, more);
    assert Split(more)[1..] == bodies;
  }

  lemma Regroup(header: string, body: string, more: string)
    ensures header + body + more == header + (body + more)
  {
  }

  lemma {:induction false} SplitEntries(packages: seq<Package>)
    requires AreEntries(packages)
    ensures Split(PrintEntries(packages)) == [""] + Bodies(packages)
    ensures packages == [] || HEADER <= PrintEntries(packages)
  {
    if packages != [] {
      SplitEntries(packages[1..]);
      var body := Body(packages[0], Gap(packages));
      BodyIsClean(packages[0], Gap(packages));
      SplitEntry(body, PrintEntries(packages[1..]), Bodies(packages[1..]));
      Regroup(HEADER, body, PrintEntries(packages[1..]));
    }
  }

  ghost predicate IsPreamble(lines: seq<string>) {
    forall i :: 0 <= i < |lines| ==> IsPreambleLine(lines[i])
  }

  lemma PreambleIsClean(preamble: seq<string>)
    requires IsPreamble(preamble)
    ensures Clean(Unlines(preamble))
  {
    forall i | 0 <= i < |preamble| ensures CleanLine(preamble[i]) { PlainLine(preamble[i]); }
    UnlinesClean(preamble);
  }

  lemma SplitPrinted(preamble: seq<string>, packages: seq<Package>)
    requires IsPreamble(preamble) && AreEntries(packages)
    ensures Split(Print(preamble, packages))[1..] == Bodies(packages)
  {
    PreambleIsClean(preamble);
    SplitEntries(packages);
    SplitClean(Unlines(preamble), PrintEntries(packages));
  }

  // ---------------------------------------------------------------- lines

  lemma {:induction false} UnlinesPieces(lines: seq<string>, rest: string)
    requires forall i :: 0 <= i < |lines| ==> '\n' !in lines[i]
    ensures Pieces(Unlines(lines) + rest) == lines + Pieces(rest)
  {
    if lines == [] {
      assert Unlines(lines) + rest == rest;
    } else {
      assert Unlines(lines) + rest == lines[0] + "\n" + (Unlines(lines[1..]) + rest);
      PiecesConcat(lines[0], Unlines(lines[1..]) + rest);
      PiecesOfLine(lines[0]);
      UnlinesPieces(lines[1..], rest);
    }
  }

  lemma BodyPieces(p: Package, gap: seq<string>)
    requires IsEntry(p) && IsGap(gap)
    ensures Pieces(Body(p, gap)) == [""] + EntryLines(p, gap) + [""]
  {
    EntryIsClean(p, gap);
    var lines := [""] + EntryLines(p, gap);
    forall i | 0 <= i < |lines| ensures '\n' !in lines[i] {
      if i > 0 { NoFeed(EntryLines(p, gap)[i - 1]); }
    }
    assert lines[1..] == EntryLines(p, gap);
    assert Body(p, gap) == Unlines(lines) + "";
    UnlinesPieces(lines, "");
  }

  lemma NoFeed(line: string)
    requires NoBreaks(line)
    ensures '\n' !in line
  {
    assert IsBreak('\n');
  }

  ghost predicate AllUnbroken(lines: seq<string>) {
    forall i :: 0 <= i < |lines| ==> NoBreaks(lines[i])
  }

  lemma {:induction false} UnlinesFeeds(lines: seq<string>)
    requires AllUnbroken(lines)
    ensures OnlyFeeds(Unlines(lines))
  {
    if lines != [] {
      UnlinesFeeds(lines[1..]);
      FeedsJoin(lines[0] + "\n", Unlines(lines[1..]));
    }
  }

  lemma FeedsJoin(a: string, b: string)
    requires OnlyFeeds(a) && OnlyFeeds(b)
    ensures OnlyFeeds(a + b)
  {
  }

  lemma EntryFeeds(p: Package, gap: seq<string>)
    requires IsEntry(p) && IsGap(gap)
    ensures OnlyFeeds(Body(p, gap))
  {
    EntryIsClean(p, gap);
    forall i | 0 <= i < |EntryLines(p, gap)| ensures NoBreaks(EntryLines(p, gap)[i]) {
      assert CleanLine(EntryLines(p, gap)[i]);
    }
    UnlinesFeeds(EntryLines(p, gap));
    FeedsJoin("\n", Unlines(EntryLines(p, gap)));
  }

  lemma HeaderFeeds()
    ensures NoBreaks(HEADER)
  {
  }

  lemma {:induction false} EntriesFeeds(packages: seq<Package>)
    requires AreEntries(packages)
    ensures OnlyFeeds(PrintEntries(packages))
  {
    if packages != [] {
      EntriesFeeds(packages[1..]);
      EntryFeeds(packages[0], Gap(packages));
      HeaderFeeds();
      FeedsJoin(HEADER, Body(packages[0], Gap(packages)));
      FeedsJoin(HEADER + Body(packages[0], Gap(packages)), PrintEntries(packages[1..]));
    }
  }

  /** A printed lockfile has no break but the line feed. */
  lemma PrintedFeeds(preamble: seq<string>, packages: seq<Package>)
    requires IsPreamble(preamble) && AreEntries(packages)
    ensures OnlyFeeds(Print(preamble, packages))
  {
    assert AllUnbroken(preamble) by {
      forall i | 0 <= i < |preamble| ensures NoBreaks(preamble[i]) { assert IsPreambleLine(preamble[i]); }
    }
    UnlinesFeeds(preamble);
    EntriesFeeds(packages);
    FeedsJoin(Unlines(preamble), PrintEntries(packages));
  }

  // ---------------------------------------------------------------- fields

  lemma {:induction false} SplitAtSign(before: string, after: string)
    requires '=' !in before
    ensures SplitOnce(before + "=" + after) == Some((before, after))
  {
    var line := before + "=" + after;
    if before == "" {
      assert line[1..] == after;
    } else {
      assert line[1..] == before[1..] + "=" + after;
      SplitAtSign(before[1..], after);
      assert [before[0]] + before[1..] == before;
    }
  }

  ghost predicate IsKey(key: string) {
    key != "" && forall i :: 0 <= i < |key| ==> !IsSpace(key[i]) && key[i] != '=' && key[i] != '"'
  }

  lemma TrimKey(key: string)
    requires IsKey(key)
    ensures Trim(key + " ") == key
  {
    assert TrimLeft(key + " ") == key + " ";
    assert (key + " ")[..|key|] == key;
    assert TrimRight(key) == key;
  }

  lemma TrimQuoted(value: string)
    ensures Trim(" \"" + value + "\"") == "\"" + value + "\""
  {
    var text := " \"" + value + "\"";
    assert text[1..] == "\"" + value + "\"";
    assert TrimLeft(text) == TrimLeft(text[1..]);
  }

  lemma FieldOfLine(key: string, value: string, wanted: string)
    requires IsKey(key)
    ensures Field(FieldLine(key, value), wanted) == if key == wanted then Some(value) else None
  {
    var after := " \"" + value + "\"";
    assert FieldLine(key, value) == (key + " ") + "=" + after;
    SplitAtSign(key + " ", after);
    TrimKey(key);
    TrimQuoted(value);
    assert ("\"" + value + "\"")[1..|value| + 1] == value;
  }

  /** The four keys a section is asked for. */
  predicate IsWanted(key: string) {
    key == "name" || key == "version" || key == "source" || key == "checksum"
  }

  lemma WantedIsKey(key: string)
    requires IsWanted(key)
    ensures IsKey(key) && key != "dependencies" && '"' !in key
  {
  }

  lemma {:induction false} TrimRightKeeps(s: string, c: char)
    requires c in s && !IsSpace(c)
    ensures c in TrimRight(s)
  {
    if IsSpace(s[|s| - 1]) {
      assert s == s[..|s| - 1] + [s[|s| - 1]];
      TrimRightKeeps(s[..|s| - 1], c);
    }
  }

  lemma {:induction false} TrimLeftKeeps(s: string, c: char)
    requires c in s && !IsSpace(c)
    ensures c in TrimLeft(s)
  {
    if IsSpace(s[0]) {
      assert s == [s[0]] + s[1..];
      TrimLeftKeeps(s[1..], c);
    }
  }

  lemma SplitAfter(c: char, rest: string)
    requires c != '='
    ensures SplitOnce([c] + rest).Some?
            ==> SplitOnce(rest).Some? && SplitOnce([c] + rest).value.0 == [c] + SplitOnce(rest).value.0
  {
    assert ([c] + rest)[1..] == rest;
  }

  /** A line that begins with a space and a quote holds no wanted field. */
  lemma QuotedLineHasNoField(rest: string, key: string)
    requires IsWanted(key)
    ensures Field(" \"" + rest, key).None?
  {
    var line := " \"" + rest;
    assert line == [' '] + (['"'] + rest);
    SplitAfter(' ', ['"'] + rest);
    SplitAfter('"', rest);
    if SplitOnce(line).Some? {
      var candidate := SplitOnce(line).value.0;
      assert candidate[1] == '"';
      TrimLeftKeeps(candidate, '"');
      TrimRightKeeps(TrimLeft(candidate), '"');
      WantedIsKey(key);
    }
  }

  lemma {:induction false} DependenciesAreHarmless(dependencies: seq<string>, key: string, more: seq<string>)
    requires IsWanted(key)
    ensures TomlString(DependencyLines(dependencies) + more, key) == TomlString(more, key)
  {
    var lines := DependencyLines(dependencies) + more;
    if dependencies == [] {
      assert lines == more;
    } else {
      assert lines[0] == " \"" + (dependencies[0] + "\",");
      QuotedLineHasNoField(dependencies[0] + "\",", key);
      assert lines[1..] == DependencyLines(dependencies[1..]) + more;
      DependenciesAreHarmless(dependencies[1..], key, more);
    }
  }

  lemma KeyWithoutValue(other: string, after: string, key: string)
    requires IsKey(other) && other != key
    ensures Field(other + " " + "=" + after, key).None?
  {
    SplitAtSign(other + " ", after);
    TrimKey(other);
  }

  lemma OpeningIsHarmless(key: string)
    requires IsWanted(key)
    ensures Field("dependencies = [", key).None?
  {
    KeyWithoutValue("dependencies", " [", key);
    assert "dependencies = [" == "dependencies" + " " + "=" + " [";
  }

  lemma ClosingIsHarmless(key: string)
    ensures Field("]", key).None? && Field("", key).None?
  {
    assert "]"[1..] == "";
  }

  lemma SkipLine(line: string, more: seq<string>, key: string)
    requires Field(line, key).None?
    ensures TomlString([line] + more, key) == TomlString(more, key)
  {
    assert ([line] + more)[1..] == more;
  }

  lemma DependenciesHaveNoField(
      opening: string, dependencies: seq<string>, closing: string, more: seq<string>, key: string)
    requires IsWanted(key) && Field(opening, key).None? && Field(closing, key).None? && TomlString(more, key).None?
    ensures TomlString([opening] + DependencyLines(dependencies) + [closing] + more, key).None?
  {
    var ends := [closing] + more;
    SkipLine(closing, more, key);
    DependenciesAreHarmless(dependencies, key, ends);
    SkipLine(opening, DependencyLines(dependencies) + ends, key);
    assert [opening] + DependencyLines(dependencies) + [closing] + more
        == [opening] + (DependencyLines(dependencies) + ends);
  }

  lemma GapHasNoField(gap: seq<string>, key: string)
    requires IsGap(gap)
    ensures TomlString(gap + [""], key).None?
  {
    ClosingIsHarmless(key);
    SkipLine("", [], key);
    SkipLine("", [""], key);
    assert [""] + [] == [""] && [] + [""] == [""];
  }

  lemma TailHasNoField(p: Package, gap: seq<string>, key: string)
    requires IsWanted(key) && IsGap(gap)
    ensures TomlString(Tail(p, gap) + [""], key).None?
  {
    OpeningIsHarmless(key);
    ClosingIsHarmless(key);
    GapHasNoField(gap, key);
    if p.dependencies == [] {
      assert Tail(p, gap) == gap;
    } else {
      DependenciesHaveNoField("dependencies = [", p.dependencies, "]", gap + [""], key);
      TailRegroup(["dependencies = ["] + DependencyLines(p.dependencies) + ["]"], gap);
    }
  }

  lemma TailRegroup(lines: seq<string>, gap: seq<string>)
    ensures lines + gap + [""] == lines + (gap + [""])
  {
  }

  lemma FieldLineFound(key: string, value: string, wanted: string, more: seq<string>)
    requires IsKey(key)
    ensures TomlString([FieldLine(key, value)] + more, wanted)
            == if key == wanted then Some(value) else TomlString(more, wanted)
  {
    FieldOfLine(key, value, wanted);
    assert ([FieldLine(key, value)] + more)[1..] == more;
  }

  lemma OptionalFound(key: string, value: Option<string>, wanted: string, more: seq<string>)
    requires IsKey(key)
    ensures TomlString(OptionalLine(key, value) + more, wanted)
            == if key == wanted && value.Some? then value else TomlString(more, wanted)
  {
    if value.Some? {
      FieldLineFound(key, value.value, wanted, more);
    } else {
      assert OptionalLine(key, value) + more == more;
    }
  }

  /** What the printed value of a key is. */
  ghost function ValueOf(p: Package, key: string): (v: Option<string>)
    requires IsWanted(key)
  {
    if key == "name" then Some(p.name) else if key == "version" then Some(p.version)
    else if key == "source" then p.source else p.checksum
  }

  ghost predicate AreKeys(keys: seq<string>) {
    && |keys| == 4 && (forall i :: 0 <= i < 4 ==> IsKey(keys[i]))
    && (forall i, j :: 0 <= i < j < 4 ==> keys[i] != keys[j])
  }

  const WANTED := ["name", "version", "source", "checksum"]

  lemma WantedAreKeys()
    ensures AreKeys(WANTED)
  {
    forall i | 0 <= i < 4 ensures IsKey(WANTED[i]) { WantedIsKey(WANTED[i]); }
    assert |WANTED[0]| == 4 && |WANTED[1]| == 7 && |WANTED[2]| == 6 && |WANTED[3]| == 8;
  }

  /** The first two fields are always there, the last two may be. */
  lemma FourFields(keys: seq<string>, p: Package, tail: seq<string>, blank: string, key: string)
    requires AreKeys(keys) && Field(blank, key).None? && TomlString(tail, key).None?
    ensures TomlString([blank] + ([FieldLine(keys[0], p.name)] + ([FieldLine(keys[1], p.version)]
                       + (OptionalLine(keys[2], p.source) + (OptionalLine(keys[3], p.checksum) + tail)))), key)
            == if key == keys[0] then Some(p.name) else if key == keys[1] then Some(p.version)
               else if key == keys[2] then p.source else if key == keys[3] then p.checksum else None
  {
    var checksum := OptionalLine(keys[3], p.checksum) + tail;
    var source := OptionalLine(keys[2], p.source) + checksum;
    var version := [FieldLine(keys[1], p.version)] + source;
    OptionalFound(keys[3], p.checksum, key, tail);
    OptionalFound(keys[2], p.source, key, checksum);
    FieldLineFound(keys[1], p.version, key, source);
    FieldLineFound(keys[0], p.name, key, version);
    SkipLine(blank, [FieldLine(keys[0], p.name)] + version, key);
  }

  /** An empty line behind the others changes nothing. */
  lemma {:induction false} BlankEnd(lines: seq<string>, key: string)
    ensures TomlString(lines + [""], key) == TomlString(lines, key)
  {
    if lines == [] {
      ClosingIsHarmless(key);
      SkipLine("", [], key);
      assert [] + [""] == [""] + [];
    } else {
      assert (lines + [""])[0] == lines[0] && (lines + [""])[1..] == lines[1..] + [""];
      BlankEnd(lines[1..], key);
    }
  }

  lemma BodyField(p: Package, gap: seq<string>, key: string)
    requires IsEntry(p) && IsGap(gap) && IsWanted(key)
    ensures TomlString(RustLines(Body(p, gap)), key) == ValueOf(p, key)
  {
    EntryFeeds(p, gap);
    LinesArePieces(Body(p, gap));
    BlankEnd(RustLines(Body(p, gap)), key);
    PiecesField(p, gap, key);
  }

  lemma PiecesField(p: Package, gap: seq<string>, key: string)
    requires IsEntry(p) && IsGap(gap) && IsWanted(key)
    ensures TomlString(Pieces(Body(p, gap)), key) == ValueOf(p, key)
  {
    BodyPieces(p, gap);
    ClosingIsHarmless(key);
    TailHasNoField(p, gap, key);
    WantedAreKeys();
    FourFields(WANTED, p, Tail(p, gap) + [""], "", key);
    EntryRegroup(FieldLine(WANTED[0], p.name), FieldLine(WANTED[1], p.version),
                 OptionalLine(WANTED[2], p.source), OptionalLine(WANTED[3], p.checksum), Tail(p, gap));
  }

  lemma EntryRegroup(name: string, version: string, source: seq<string>, checksum: seq<string>, tail: seq<string>)
    ensures [""] + ([name, version] + (source + (checksum + tail))) + [""]
            == [""] + ([name] + ([version] + (source + (checksum + (tail + [""])))))
  {
  }

  // ---------------------------------------------------------------- the splitter finds the entry

  ghost predicate IsRegistry(p: Package) {
    p.source.Some? && p.checksum.Some?
  }

  /** The locked entries of a name; None if one of them is not from a registry. */
  ghost function Entries(packages: seq<Package>, name: string): (r: Option<seq<Locked>>)
  {
    if packages == [] then Some([])
    else
      var p, rest := packages[0], Entries(packages[1..], name);
      if p.name != name then rest
      else if !IsRegistry(p) || rest.None? then None
      else Some([Locked(p.version, p.source.value, p.checksum.value)] + rest.value)
  }

  lemma {:induction false} MatchesAreEntries(packages: seq<Package>, name: string)
    requires AreEntries(packages)
    ensures Matches(Bodies(packages), name) == Entries(packages, name)
  {
    if packages != [] {
      var p := packages[0];
      MatchesAreEntries(packages[1..], name);
      BodyField(p, Gap(packages), "name");
      BodyField(p, Gap(packages), "version");
      BodyField(p, Gap(packages), "source");
      BodyField(p, Gap(packages), "checksum");
      assert Bodies(packages)[1..] == Bodies(packages[1..]);
    }
  }

  /** Entry `i` is the only one of its name. */
  ghost predicate IsOnly(packages: seq<Package>, i: nat)
    requires i < |packages|
  {
    forall j :: 0 <= j < |packages| && j != i ==> packages[j].name != packages[i].name
  }

  lemma {:induction false} NoEntries(packages: seq<Package>, name: string)
    requires forall j :: 0 <= j < |packages| ==> packages[j].name != name
    ensures Entries(packages, name) == Some([])
  {
    if packages != [] { NoEntries(packages[1..], name); }
  }

  lemma {:induction false} OneEntry(packages: seq<Package>, i: nat)
    requires i < |packages| && IsOnly(packages, i) && IsRegistry(packages[i])
    ensures var p := packages[i];
            Entries(packages, p.name) == Some([Locked(p.version, p.source.value, p.checksum.value)])
  {
    if i == 0 {
      forall j | 0 <= j < |packages[1..]| ensures packages[1..][j].name != packages[0].name {
        assert packages[j + 1] == packages[1..][j];
      }
      NoEntries(packages[1..], packages[0].name);
      var locked := Locked(packages[0].version, packages[0].source.value, packages[0].checksum.value);
      assert [locked] + [] == [locked];
    } else {
      assert packages[1..][i - 1] == packages[i];
      forall j | 0 <= j < |packages[1..]| && j != i - 1 ensures packages[1..][j].name != packages[i].name {
        assert packages[j + 1] == packages[1..][j];
      }
      OneEntry(packages[1..], i - 1);
    }
  }

  lemma {:induction false} EntriesAreNamed(packages: seq<Package>, name: string)
    requires Entries(packages, name).Some?
    ensures Entries(packages, name).value == [] ==> forall j :: 0 <= j < |packages| ==> packages[j].name != name
  {
    if packages != [] {
      if packages[0].name != name { EntriesAreNamed(packages[1..], name); }
    }
  }

  lemma {:induction false} OneIsOnly(packages: seq<Package>, name: string) returns (i: nat)
    requires Entries(packages, name).Some? && |Entries(packages, name).value| == 1
    ensures i < |packages| && packages[i].name == name && IsOnly(packages, i) && IsRegistry(packages[i])
  {
    if packages[0].name == name {
      EntriesAreNamed(packages[1..], name);
      forall j | 0 < j < |packages| ensures packages[j].name != name { assert packages[1..][j - 1] == packages[j]; }
      i := 0;
    } else {
      var k := OneIsOnly(packages[1..], name);
      i := k + 1;
      forall j | 0 <= j < |packages| && j != i ensures packages[j].name != name {
        if j > 0 { assert packages[1..][j - 1] == packages[j]; }
      }
    }
  }

  // ---------------------------------------------------------------- the scanner finds the version

  ghost function PackageLines(packages: seq<Package>): (lines: seq<string>)
  {
    if packages == [] then [""] else [HEADER] + EntryLines(packages[0], Gap(packages)) + PackageLines(packages[1..])
  }

  lemma {:induction false} EntriesPieces(packages: seq<Package>)
    requires AreEntries(packages)
    ensures Pieces(PrintEntries(packages)) == PackageLines(packages)
  {
    if packages != [] {
      var entry, more := EntryLines(packages[0], Gap(packages)), PrintEntries(packages[1..]);
      var lines := [HEADER] + entry;
      EntriesPieces(packages[1..]);
      EntryIsClean(packages[0], Gap(packages));
      HeaderFeeds();
      forall i | 0 <= i < |lines| ensures '\n' !in lines[i] {
        if i > 0 { assert CleanLine(entry[i - 1]); }
        NoFeed(lines[i]);
      }
      UnlinesPieces(lines, more);
      assert lines[1..] == entry;
      assert Unlines(lines) == HEADER + "\n" + Unlines(entry);
      Regroup(HEADER, "\n", Unlines(entry));
    }
  }

  lemma PrintedPieces(preamble: seq<string>, packages: seq<Package>)
    requires IsPreamble(preamble) && AreEntries(packages)
    ensures Pieces(Print(preamble, packages)) == preamble + PackageLines(packages)
  {
    forall i | 0 <= i < |preamble| ensures '\n' !in preamble[i] {
      assert IsPreambleLine(preamble[i]);
      NoFeed(preamble[i]);
    }
    UnlinesPieces(preamble, PrintEntries(packages));
    EntriesPieces(packages);
  }

  /** Lines the scanner passes over in a section that is not the wanted one. */
  ghost predicate IsOther(line: string) {
    line != HEADER && !("name = " <= line)
  }

  lemma {:induction false} SkipOthers(lines: seq<string>, rest: seq<string>, package: string, name: Option<string>)
    requires name != Some(package) && forall i :: 0 <= i < |lines| ==> IsOther(lines[i])
    ensures ScanFrom(lines + rest, package, name) == ScanFrom(rest, package, name)
  {
    if lines == [] {
      assert lines + rest == rest;
    } else {
      assert IsOther(lines[0]);
      assert (lines + rest)[1..] == lines[1..] + rest;
      SkipOthers(lines[1..], rest, package, name);
    }
  }

  lemma {:induction false} UpToEnd(value: string)
    requires '"' !in value
    ensures UpToQuote(value + "\"") == value
  {
    if value != "" {
      assert (value + "\"")[1..] == value[1..] + "\"";
      UpToEnd(value[1..]);
      assert [value[0]] + value[1..] == value;
    }
  }

  lemma {:induction false} QuotedAfter(prefix: string, value: string)
    requires '"' !in prefix && '"' !in value
    ensures Quoted(prefix + "\"" + value + "\"") == Some(value)
  {
    var line := prefix + "\"" + value + "\"";
    if prefix == "" {
      assert line[1..] == value + "\"";
      UpToEnd(value);
    } else {
      assert line[1..] == prefix[1..] + "\"" + value + "\"";
      QuotedAfter(prefix[1..], value);
    }
  }

  lemma QuotedField(key: string, value: string)
    requires '"' !in key && '"' !in value
    ensures Quoted(FieldLine(key, value)) == Some(value)
  {
    assert FieldLine(key, value) == (key + " = ") + "\"" + value + "\"";
    QuotedAfter(key + " = ", value);
  }

  lemma FieldLineStarts(key: string, value: string)
    ensures key + " = " <= FieldLine(key, value)
    ensures key != "" && key[0] != 'n' && key[0] != '[' ==> IsOther(FieldLine(key, value))
  {
    assert FieldLine(key, value)[..|key| + 3] == key + " = ";
    if key != "" { assert FieldLine(key, value)[0] == key[0]; }
  }

  lemma {:induction false} DependenciesAreOthers(dependencies: seq<string>)
    ensures forall i :: 0 <= i < |DependencyLines(dependencies)| ==> IsOther(DependencyLines(dependencies)[i])
  {
    if dependencies != [] {
      assert DependencyLines(dependencies)[0][0] == ' ';
      DependenciesAreOthers(dependencies[1..]);
    }
  }

  lemma TailIsOther(p: Package, gap: seq<string>)
    requires IsGap(gap)
    ensures forall i :: 0 <= i < |Tail(p, gap)| ==> IsOther(Tail(p, gap)[i])
  {
    DependenciesAreOthers(p.dependencies);
    assert "dependencies = ["[0] == 'd' && "]"[0] == ']';
  }

  lemma RestIsOther(p: Package, gap: seq<string>)
    requires IsGap(gap)
    ensures var others := OptionalLine("source", p.source) + (OptionalLine("checksum", p.checksum) + Tail(p, gap));
            forall i :: 0 <= i < |others| ==> IsOther(others[i])
  {
    TailIsOther(p, gap);
    if p.source.Some? { FieldLineStarts("source", p.source.value); }
    if p.checksum.Some? { FieldLineStarts("checksum", p.checksum.value); }
  }

  /** The version of the first entry of a name. */
  ghost function FirstVersion(packages: seq<Package>, name: string): (r: Option<string>)
  {
    if packages == [] then None
    else if packages[0].name == name then Some(packages[0].version)
    else FirstVersion(packages[1..], name)
  }

  /** One section: its version if it is the wanted one, otherwise on to the next. */
  lemma ScanSection(nameLine: string, versionLine: string, others: seq<string>, rest: seq<string>, package: string,
                    before: Option<string>, name: string, version: string)
    requires "name = " <= nameLine && nameLine != HEADER && Quoted(nameLine) == Some(name)
    requires "version = " <= versionLine && IsOther(versionLine) && Quoted(versionLine) == Some(version)
    requires forall i :: 0 <= i < |others| ==> IsOther(others[i])
    ensures ScanFrom([HEADER] + ([nameLine] + ([versionLine] + (others + rest))), package, before)
            == if name == package then Some(version) else ScanFrom(rest, package, Some(name))
  {
    var third := [versionLine] + (others + rest);
    var second := [nameLine] + third;
    assert ([HEADER] + second)[1..] == second && second[1..] == third && third[1..] == others + rest;
    assert ScanFrom([HEADER] + second, package, before) == ScanFrom(second, package, None);
    assert ScanFrom(second, package, None) == ScanFrom(third, package, Some(name));
    if name != package { SkipOthers(others, rest, package, Some(name)); }
  }

  lemma {:induction false} ScanPackages(packages: seq<Package>, package: string, name: Option<string>)
    requires AreEntries(packages) && name != Some(package)
    ensures ScanFrom(PackageLines(packages), package, name) == FirstVersion(packages, package)
  {
    if packages == [] {
      assert [""][1..] == [];
    } else {
      var p, gap, rest := packages[0], Gap(packages), PackageLines(packages[1..]);
      var others := OptionalLine("source", p.source) + (OptionalLine("checksum", p.checksum) + Tail(p, gap));
      QuotedField("name", p.name);
      QuotedField("version", p.version);
      FieldLineStarts("name", p.name);
      FieldLineStarts("version", p.version);
      assert FieldLine("name", p.name)[0] == 'n' && HEADER[0] == '[';
      RestIsOther(p, gap);
      ScanSection(FieldLine("name", p.name), FieldLine("version", p.version), others, rest, package, name,
                  p.name, p.version);
      SectionRegroup(FieldLine("name", p.name), FieldLine("version", p.version), others, rest);
      if p.name != package { ScanPackages(packages[1..], package, Some(p.name)); }
    }
  }

  lemma SectionRegroup(nameLine: string, versionLine: string, others: seq<string>, rest: seq<string>)
    ensures [HEADER] + ([nameLine, versionLine] + others) + rest
            == [HEADER] + ([nameLine] + ([versionLine] + (others + rest)))
  {
  }

  /** An empty line behind the others changes nothing. */
  lemma {:induction false} ScanBlankEnd(lines: seq<string>, package: string, name: Option<string>)
    ensures ScanFrom(lines + [""], package, name) == ScanFrom(lines, package, name)
  {
    if lines == [] {
      assert ([] + [""])[0] == "" && ([] + [""])[1..] == [];
    } else {
      assert (lines + [""])[0] == lines[0] && (lines + [""])[1..] == lines[1..] + [""];
      ScanBlankEnd(lines[1..], package, None);
      ScanBlankEnd(lines[1..], package, Quoted(lines[0]));
      ScanBlankEnd(lines[1..], package, name);
    }
  }

  lemma ScanPieces(preamble: seq<string>, packages: seq<Package>, package: string)
    requires IsPreamble(preamble) && AreEntries(packages)
    ensures ScanFrom(Pieces(Print(preamble, packages)), package, None) == FirstVersion(packages, package)
  {
    PrintedPieces(preamble, packages);
    forall i | 0 <= i < |preamble| ensures IsOther(preamble[i]) {
      assert IsPreambleLine(preamble[i]) && HEADER[0] == '[';
    }
    SkipOthers(preamble, PackageLines(packages), package, None);
    ScanPackages(packages, package, None);
  }

  lemma ScanPrinted(preamble: seq<string>, packages: seq<Package>, package: string)
    requires IsPreamble(preamble) && AreEntries(packages)
    ensures ScanFrom(SplitLines(Print(preamble, packages)), package, None) == FirstVersion(packages, package)
  {
    PrintedFeeds(preamble, packages);
    LinesArePieces(Print(preamble, packages));
    ScanBlankEnd(SplitLines(Print(preamble, packages)), package, None);
    ScanPieces(preamble, packages, package);
  }

  lemma {:induction false} FirstIsOnly(packages: seq<Package>, i: nat)
    requires i < |packages| && IsOnly(packages, i)
    ensures FirstVersion(packages, packages[i].name) == Some(packages[i].version)
  {
    if i > 0 {
      assert packages[1..][i - 1] == packages[i];
      forall j | 0 <= j < |packages[1..]| && j != i - 1 ensures packages[1..][j].name != packages[i].name {
        assert packages[j + 1] == packages[1..][j];
      }
      FirstIsOnly(packages[1..], i - 1);
    }
  }

  // ---------------------------------------------------------------- they agree

  /** For a package locked once, from a registry, both readers return the printed version. */
  lemma ReadersAgree(preamble: seq<string>, packages: seq<Package>, i: nat)
    requires IsPreamble(preamble) && AreEntries(packages)
    requires i < |packages| && IsOnly(packages, i) && IsRegistry(packages[i])
    ensures var p := packages[i];
            var text := Print(preamble, packages);
            && LockedPackage(text, p.name) == Some(Locked(p.version, p.source.value, p.checksum.value))
            && ScanFrom(SplitLines(text), p.name, None) == Some(p.version)
  {
    SplitPrinted(preamble, packages);
    MatchesAreEntries(packages, packages[i].name);
    OneEntry(packages, i);
    ScanPrinted(preamble, packages, packages[i].name);
    FirstIsOnly(packages, i);
  }

  /** The splitter accepts nothing else: an entry it returns is the only one of its name, and the scanner
      returns the same version. */
  lemma SplitterIsStrict(preamble: seq<string>, packages: seq<Package>, name: string)
    requires IsPreamble(preamble) && AreEntries(packages)
    requires LockedPackage(Print(preamble, packages), name).Some?
    ensures exists i :: 0 <= i < |packages| && packages[i].name == name && IsOnly(packages, i)
              && IsRegistry(packages[i])
    ensures ScanFrom(SplitLines(Print(preamble, packages)), name, None)
            == Some(LockedPackage(Print(preamble, packages), name).value.version)
  {
    SplitPrinted(preamble, packages);
    MatchesAreEntries(packages, name);
    var i := OneIsOnly(packages, name);
    ReadersAgree(preamble, packages, i);
  }
}
