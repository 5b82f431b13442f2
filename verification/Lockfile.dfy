/** Two readers of Cargo.lock: the build script's section splitter and the gate's line scanner. */
module Lockfile {
  import opened Lines
  import opened Optional

  const HEADER := "[[package]]"

  // ---------------------------------------------------------------- the section splitter

  /** The pieces between the headers, wherever they occur in the text. */
  function Split(text: string): (pieces: seq<string>)
    ensures pieces != []
    decreases |text|
  {
    if text == "" then [""]
    else if HEADER <= text then [""] + Split(text[|HEADER|..])
    else
      var rest := Split(text[1..]);
      [[text[0]] + rest[0]] + rest[1..]
  }

  /** Unicode white space, which `trim` removes. */
  predicate IsSpace(c: char) {
    || c == ' ' || '\t' <= c <= '\r' || c == '\U{85}' || c == '\U{A0}' || c == '\U{1680}'
    || '\U{2000}' <= c <= '\U{200A}' || c == '\U{2028}' || c == '\U{2029}' || c == '\U{202F}' || c == '\U{205F}'
    || c == '\U{3000}'
  }

  function TrimLeft(s: string): (t: string)
  {
    if s != "" && IsSpace(s[0]) then TrimLeft(s[1..]) else s
  }

  function TrimRight(s: string): (t: string)
  {
    if s != "" && IsSpace(s[|s| - 1]) then TrimRight(s[..|s| - 1]) else s
  }

  function Trim(s: string): (t: string)
  {
    TrimRight(TrimLeft(s))
  }

  /** The parts before and after the first equals sign. */
  function SplitOnce(line: string): (r: Option<(string, string)>)
  {
    if line == "" then None
    else if line[0] == '=' then Some(("", line[1..]))
    else
      match SplitOnce(line[1..])
      case None => None
      case Some((before, after)) => Some(([line[0]] + before, after))
  }

  function Unquoted(value: string): (r: Option<string>)
  {
    if |value| >= 2 && value[0] == '"' && value[|value| - 1] == '"' then Some(value[1..|value| - 1]) else None
  }

  /** The quoted value of `key`, if that is what the line holds. */
  function Field(line: string, key: string): (r: Option<string>)
  {
    match SplitOnce(line)
    case None => None
    case Some((candidate, value)) => if Trim(candidate) == key then Unquoted(Trim(value)) else None
  }

  /** `toml_string`: the first line that holds the key. */
  function TomlString(lines: seq<string>, key: string): (r: Option<string>)
  {
    if lines == [] then None
    else if Field(lines[0], key).Some? then Field(lines[0], key)
    else TomlString(lines[1..], key)
  }

  datatype Locked = Locked(version: string, source: string, checksum: string)

  /** The entries of `name` among the sections; None where a field of one is missing. */
  function Matches(sections: seq<string>, name: string): (r: Option<seq<Locked>>)
  {
    if sections == [] then Some([])
    else
      var lines := RustLines(sections[0]);
      var rest := Matches(sections[1..], name);
      if TomlString(lines, "name") != Some(name) then rest
      else
        var version, source, checksum :=
          TomlString(lines, "version"), TomlString(lines, "source"), TomlString(lines, "checksum");
        if version.None? || source.None? || checksum.None? || rest.None? then None
        else Some([Locked(version.value, source.value, checksum.value)] + rest.value)
  }

  /** `locked_package`: exactly one entry, or a failed build. */
  function LockedPackage(text: string, name: string): (r: Option<Locked>)
  {
    match Matches(Split(text)[1..], name)
    case None => None
    case Some(found) => if |found| == 1 then Some(found[0]) else None
  }

  // ---------------------------------------------------------------- the line scanner

  /** The text between the first two quotes. */
  function Quoted(line: string): (r: Option<string>)
  {
    if line == "" then None
    else if line[0] == '"' then Some(UpToQuote(line[1..]))
    else Quoted(line[1..])
  }

  function UpToQuote(text: string): (r: string)
  {
    if text == "" || text[0] == '"' then "" else [text[0]] + UpToQuote(text[1..])
  }

  /** What is left to find, with the name last seen in the current section. */
  function ScanFrom(lines: seq<string>, package: string, name: Option<string>): (r: Option<string>)
  {
    if lines == [] then None
    else if lines[0] == HEADER then ScanFrom(lines[1..], package, None)
    else if "name = " <= lines[0] then
      (if Quoted(lines[0]).None? then None else ScanFrom(lines[1..], package, Quoted(lines[0])))
    else if "version = " <= lines[0] && name == Some(package) then Quoted(lines[0])
    else ScanFrom(lines[1..], package, name)
  }

  /** `locked_package_version`: None where it raises. */
  method LockedVersion(lines: seq<string>, package: string) returns (r: Option<string>)
    ensures r == ScanFrom(lines, package, None)
  {
    var name: Option<string> := None;
    for i := 0 to |lines|
      invariant ScanFrom(lines, package, None) == ScanFrom(lines[i..], package, name)
    {
      var line := lines[i];
      if line == HEADER {
        name := None;
      } else if "name = " <= line {
        name := Quoted(line);
        if name.None? {
          return None;
        }
      } else if "version = " <= line && name == Some(package) {
        return Quoted(line);
      }
    }
    return None;
  }

  // ---------------------------------------------------------------- a printed lockfile

  datatype Package = Package(
    name: string, version: string, source: Option<string>, checksum: Option<string>, dependencies: seq<string>)

  function FieldLine(key: string, value: string): (line: string)
  {
    key + " = " + "\"" + value + "\""
  }

  function OptionalLine(key: string, value: Option<string>): (lines: seq<string>)
  {
    if value.Some? then [FieldLine(key, value.value)] else []
  }

  function DependencyLines(dependencies: seq<string>): (lines: seq<string>)
  {
    if dependencies == [] then [] else [" \"" + dependencies[0] + "\","] + DependencyLines(dependencies[1..])
  }

  /** The dependencies, and the gap before the next entry. */
  function Tail(p: Package, gap: seq<string>): (lines: seq<string>)
  {
    (if p.dependencies == [] then [] else ["dependencies = ["] + DependencyLines(p.dependencies) + ["]"]) + gap
  }

  /** The lines of an entry below its header. */
  function EntryLines(p: Package, gap: seq<string>): (lines: seq<string>)
  {
    [FieldLine("name", p.name), FieldLine("version", p.version)]
    + (OptionalLine("source", p.source) + (OptionalLine("checksum", p.checksum) + Tail(p, gap)))
  }

  /** A blank line stands between entries, and none behind the last one. */
  function Gap(packages: seq<Package>): (lines: seq<string>)
  {
    if |packages| > 1 then [""] else []
  }

  function Unlines(lines: seq<string>): (text: string)
  {
    if lines == [] then "" else lines[0] + "\n" + Unlines(lines[1..])
  }

  function PrintEntries(packages: seq<Package>): (text: string)
  {
    if packages == [] then ""
    else HEADER + ("\n" + Unlines(EntryLines(packages[0], Gap(packages)))) + PrintEntries(packages[1..])
  }

  function Print(preamble: seq<string>, packages: seq<Package>): (text: string)
  {
    Unlines(preamble) + PrintEntries(packages)
  }

  predicate NoBreaks(s: string) {
    forall i :: 0 <= i < |s| ==> !IsBreak(s[i])
  }

  /** Values hold no quote, no bracket and no line break of any kind. */
  predicate IsValue(s: string) {
    '"' !in s && '[' !in s && NoBreaks(s)
  }

  ghost predicate IsEntry(p: Package) {
    && IsValue(p.name) && IsValue(p.version)
    && (p.source.Some? ==> IsValue(p.source.value)) && (p.checksum.Some? ==> IsValue(p.checksum.value))
    && forall i :: 0 <= i < |p.dependencies| ==> IsValue(p.dependencies[i])
  }

  /** Lines before the first entry. */
  predicate IsPreambleLine(line: string) {
    '[' !in line && NoBreaks(line) && !("name = " <= line)
  }
}
