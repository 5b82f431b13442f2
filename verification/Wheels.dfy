/** The Python SDK release: exactly one wheel per platform, and a manifest that pins them. */
module Wheels {
  import opened BigEndian
  import opened Optional

  datatype Platform = LinuxX86 | LinuxArm | MacArm | MacX86

  const PLATFORMS: set<Platform> := {LinuxX86, LinuxArm, MacArm, MacX86}

  /** A directory: the bytes of each file by name, None for anything that is not a file. */
  type Directory = map<string, Option<seq<byte>>>

  // ---------------------------------------------------------------- wheel names

  predicate IsDigit(c: char) {
    '0' <= c <= '9'
  }

  predicate IsLetter(c: char) {
    'a' <= c <= 'z' || 'A' <= c <= 'Z'
  }

  predicate IsVersionCharacter(c: char) {
    IsDigit(c) || IsLetter(c) || c == '.'
  }

  predicate IsTagCharacter(c: char) {
    IsDigit(c) || IsLetter(c) || c == '_' || c == '.'
  }

  /** How far the text goes on with such characters. */
  function RunOf(text: string, ok: char -> bool): (n: nat)
    ensures n <= |text| && (n < |text| ==> !ok(text[n]))
  {
    if text == "" || !ok(text[0]) then 0 else 1 + RunOf(text[1..], ok)
  }

  /** What follows a fixed beginning. */
  function After(text: string, start: string): (rest: Option<string>)
  {
    if start <= text then Some(text[|start|..]) else None
  }

  datatype Wheel = Wheel(version: string, tag: string)

  /** `nokv-<version>-cp39-abi3-<platform>.whl`: a version has no dash, so the name splits in one way. */
  function ParseWheel(name: string): (w: Option<Wheel>)
  {
    match After(name, "nokv-")
    case None => None
    case Some(text) =>
      var n := RunOf(text, IsVersionCharacter);
      if n == 0 || !IsDigit(text[0]) then None
      else
        match After(text[n..], "-cp39-abi3-")
        case None => None
        case Some(rest) =>
          var m := |rest| - 4;
          if m < 1 || rest[m..] != ".whl" || RunOf(rest[..m], IsTagCharacter) != m then None
          else Some(Wheel(text[..n], rest[..m]))
  }

  function WheelName(w: Wheel): (name: string)
  {
    "nokv-" + (w.version + ("-cp39-abi3-" + (w.tag + ".whl")))
  }

  predicate IsWheel(w: Wheel) {
    && w.version != "" && IsDigit(w.version[0]) && RunOf(w.version, IsVersionCharacter) == |w.version|
    && w.tag != "" && RunOf(w.tag, IsTagCharacter) == |w.tag|
  }

  lemma {:induction false} RunStops(text: string, rest: string, ok: char -> bool)
    requires RunOf(text, ok) == |text| && (rest == "" || !ok(rest[0]))
    ensures RunOf(text + rest, ok) == |text|
  {
    if text == "" {
      assert text + rest == rest;
    } else {
      assert (text + rest)[1..] == text[1..] + rest;
      RunStops(text[1..], rest, ok);
    }
  }

  lemma {:induction false} RunIsWhole(text: string, ok: char -> bool)
    ensures RunOf(text[..RunOf(text, ok)], ok) == RunOf(text, ok)
  {
    if text != "" && ok(text[0]) {
      RunIsWhole(text[1..], ok);
      assert text[..RunOf(text, ok)][1..] == text[1..][..RunOf(text[1..], ok)];
    }
  }

  lemma AfterStart(start: string, rest: string)
    ensures After(start + rest, start) == Some(rest)
  {
  }

  /** A wheel's name reads back as its version and platform tag. */
  lemma WheelNameReadsBack(w: Wheel)
    requires IsWheel(w)
    ensures ParseWheel(WheelName(w)) == Some(w)
  {
    var ending := w.tag + ".whl";
    var middle := "-cp39-abi3-" + ending;
    AfterStart("nokv-", w.version + middle);
    RunStops(w.version, middle, IsVersionCharacter);
    assert (w.version + middle)[|w.version|..] == middle && (w.version + middle)[..|w.version|] == w.version;
    AfterStart("-cp39-abi3-", ending);
    assert ending[|w.tag|..] == ".whl" && ending[..|w.tag|] == w.tag;
  }

  /** And nothing else is read as that wheel. */
  lemma OnlyItsNameIsRead(name: string)
    requires ParseWheel(name).Some?
    ensures IsWheel(ParseWheel(name).value) && WheelName(ParseWheel(name).value) == name
  {
    var text := After(name, "nokv-").value;
    assert name == "nokv-" + text;
    var n := RunOf(text, IsVersionCharacter);
    RunIsWhole(text, IsVersionCharacter);
    var rest := After(text[n..], "-cp39-abi3-").value;
    assert text == text[..n] + text[n..] && text[n..] == "-cp39-abi3-" + rest;
    var m := |rest| - 4;
    assert rest == rest[..m] + rest[m..];
  }

  /** What follows `macosx_<digits>_<digits>`. */
  function AfterMac(tag: string): (rest: Option<string>)
  {
    match After(tag, "macosx_")
    case None => None
    case Some(text) =>
      var n := RunOf(text, IsDigit);
      if n == 0 || n == |text| || text[n] != '_' then None
      else
        var minor := text[n + 1..];
        var m := RunOf(minor, IsDigit);
        if m == 0 then None else Some(minor[m..])
  }

  predicate Owns(p: Platform, tag: string) {
    match p
    case LinuxX86 => tag == "manylinux_2_28_x86_64"
    case LinuxArm => tag == "manylinux_2_28_aarch64"
    case MacArm => AfterMac(tag) == Some("_arm64")
    case MacX86 => AfterMac(tag) == Some("_x86_64")
  }

  function Owners(tag: string): (owners: set<Platform>)
  {
    set p | p in PLATFORMS && Owns(p, tag)
  }

  predicate IsMac(p: Platform) {
    p == MacArm || p == MacX86
  }

  lemma LinuxOwners(tag: string)
    ensures !(Owns(LinuxX86, tag) && Owns(LinuxArm, tag))
  {
    assert |"manylinux_2_28_x86_64"| == 21 && |"manylinux_2_28_aarch64"| == 22;
  }

  lemma MacOwners(tag: string)
    ensures !(Owns(MacArm, tag) && Owns(MacX86, tag))
  {
    assert |"_arm64"| == 6 && |"_x86_64"| == 7;
  }

  lemma LinuxTag(tag: string, p: Platform)
    requires Owns(p, tag) && !IsMac(p)
    ensures |tag| > 2 && tag[2] == 'n'
  {
    if p == LinuxX86 {
      assert "manylinux_2_28_x86_64"[2] == 'n';
    } else {
      assert "manylinux_2_28_aarch64"[2] == 'n';
    }
  }

  lemma MacTag(tag: string, p: Platform)
    requires Owns(p, tag) && IsMac(p)
    ensures |tag| > 2 && tag[2] == 'c'
  {
    assert "macosx_" <= tag;
    assert tag[2] == "macosx_"[2];
  }

  /** No tag belongs to two platforms. */
  lemma OneOwner(tag: string, p: Platform, q: Platform)
    requires Owns(p, tag) && Owns(q, tag)
    ensures p == q
  {
    LinuxOwners(tag);
    MacOwners(tag);
    if IsMac(p) { MacTag(tag, p); } else { LinuxTag(tag, p); }
    if IsMac(q) { MacTag(tag, q); } else { LinuxTag(tag, q); }
  }

  // ---------------------------------------------------------------- the wheel set

  function FirstOwner(tag: string): (p: Option<Platform>)
  {
    if Owns(LinuxX86, tag) then Some(LinuxX86)
    else if Owns(LinuxArm, tag) then Some(LinuxArm)
    else if Owns(MacArm, tag) then Some(MacArm)
    else if Owns(MacX86, tag) then Some(MacX86)
    else None
  }

  lemma FirstIsTheOwner(tag: string, p: Platform)
    ensures FirstOwner(tag) == Some(p) <==> Owns(p, tag)
  {
    if FirstOwner(tag).Some? && Owns(p, tag) { OneOwner(tag, FirstOwner(tag).value, p); }
  }

  lemma OwnersAreOne(tag: string, p: Platform)
    ensures Owners(tag) == {p} <==> Owns(p, tag)
  {
    assert p in PLATFORMS by { match p { case LinuxX86 => case LinuxArm => case MacArm => case MacX86 => } }
    if Owners(tag) == {p} { assert p in Owners(tag); }
    if Owns(p, tag) {
      forall q | q in Owners(tag) ensures q == p { OneOwner(tag, p, q); }
      assert p in Owners(tag);
    }
  }

  /** The platform of a file that may be in the directory of a release; None where the original raises. */
  function PlatformOf(dir: Directory, version: string, name: string): (p: Option<Platform>)
    requires name in dir
  {
    var w := ParseWheel(name);
    if w.None? || dir[name].None? || w.value.version != version then None else FirstOwner(w.value.tag)
  }

  /** Since no tag has two owners, that is the one owner of the tag. */
  lemma PlatformIsTheOwner(dir: Directory, version: string, name: string, p: Platform)
    requires name in dir
    ensures PlatformOf(dir, version, name) == Some(p)
            <==> && ParseWheel(name).Some? && dir[name].Some? && ParseWheel(name).value.version == version
                 && Owners(ParseWheel(name).value.tag) == {p}
  {
    if ParseWheel(name).Some? {
      FirstIsTheOwner(ParseWheel(name).value.tag, p);
      OwnersAreOne(ParseWheel(name).value.tag, p);
    }
  }

  /** Which platform a name is a wheel for, in a given directory and release. */
  type Kind = string -> Option<Platform>

  function KindIn(dir: Directory, version: string): (kind: Kind)
  {
    name => if name in dir then PlatformOf(dir, version, name) else None
  }

  predicate IsVisible(name: string) {
    !("." <= name)
  }

  ghost function Names(listing: seq<string>): (names: set<string>)
  {
    set name | name in listing
  }

  /** Every visible name is a wheel, and wheels and platforms correspond one to one. */
  ghost predicate IsWheelSet(names: set<string>, kind: Kind, wheels: map<Platform, string>) {
    && wheels.Keys == PLATFORMS
    && (forall p :: p in wheels ==> wheels[p] in names && IsVisible(wheels[p]) && kind(wheels[p]) == Some(p))
    && (forall name :: name in names && IsVisible(name) ==>
          kind(name).Some? && kind(name).value in wheels && wheels[kind(name).value] == name)
  }

  /** A wheel set assigns each platform in only one way. */
  lemma WheelSetIsUnique(names: set<string>, kind: Kind, a: map<Platform, string>, b: map<Platform, string>)
    requires IsWheelSet(names, kind, a) && IsWheelSet(names, kind, b)
    ensures a == b
  {
    forall p | p in a ensures p in b && a[p] == b[p] {
      assert kind(a[p]) == Some(p);
    }
  }

  ghost predicate SoFar(listing: seq<string>, i: nat, kind: Kind, found: map<Platform, string>)
    requires i <= |listing|
  {
    && (forall p :: p in found ==> found[p] in listing[..i] && IsVisible(found[p]) && kind(found[p]) == Some(p))
    && (forall j :: 0 <= j < i && IsVisible(listing[j]) ==>
          kind(listing[j]).Some? && kind(listing[j]).value in found && found[kind(listing[j]).value] == listing[j])
  }

  /** The loop over the sorted listing: accepts just the directories that are wheel sets. */
  method Classify(listing: seq<string>, kind: Kind) returns (r: Option<map<Platform, string>>)
    requires forall i, j :: 0 <= i < j < |listing| ==> listing[i] != listing[j]
    ensures if r.Some? then IsWheelSet(Names(listing), kind, r.value)
            else forall wheels :: !IsWheelSet(Names(listing), kind, wheels)
  {
    var found: map<Platform, string> := map[];
    for i := 0 to |listing|
      invariant SoFar(listing, i, kind, found)
    {
      var name := listing[i];
      if IsVisible(name) {
        var platform := kind(name);
        if platform.None? {
          return None;
        }
        if platform.value in found {
          SecondWheel(listing, i, kind, found);
          return None;
        }
        found := found[platform.value := name];
      }
      assert listing[..i + 1] == listing[..i] + [name];
    }
    if PLATFORMS - found.Keys != {} {
      MissingPlatform(listing, kind, found);
      return None;
    }
    AllPlatforms(found.Keys);
    assert listing[..|listing|] == listing;
    return Some(found);
  }

  lemma SecondWheel(listing: seq<string>, i: nat, kind: Kind, found: map<Platform, string>)
    requires i < |listing| && SoFar(listing, i, kind, found) && IsVisible(listing[i]) && kind(listing[i]).Some?
    requires kind(listing[i]).value in found
    requires forall i, j :: 0 <= i < j < |listing| ==> listing[i] != listing[j]
    ensures forall wheels :: !IsWheelSet(Names(listing), kind, wheels)
  {
    var p := kind(listing[i]).value;
    var j :| 0 <= j < i && listing[j] == found[p];
    assert listing[i] in listing && listing[j] in listing && listing[i] != listing[j];
  }

  lemma AllPlatforms(keys: set<Platform>)
    requires PLATFORMS - keys == {}
    ensures keys == PLATFORMS
  {
    forall p: Platform ensures p in PLATFORMS {
      match p { case LinuxX86 => case LinuxArm => case MacArm => case MacX86 => }
    }
    assert forall p :: p in PLATFORMS && p !in keys ==> p in PLATFORMS - keys;
  }

  lemma MissingPlatform(listing: seq<string>, kind: Kind, found: map<Platform, string>)
    requires PLATFORMS - found.Keys != {} && SoFar(listing, |listing|, kind, found)
    ensures forall wheels :: !IsWheelSet(Names(listing), kind, wheels)
  {
  }

  method ClassifyWheels(dir: Directory, listing: seq<string>, version: string)
    returns (r: Option<map<Platform, string>>)
    requires dir.Keys == Names(listing)
    requires forall i, j :: 0 <= i < j < |listing| ==> listing[i] != listing[j]
    ensures if r.Some? then IsWheelSet(dir.Keys, KindIn(dir, version), r.value)
            else forall wheels :: !IsWheelSet(dir.Keys, KindIn(dir, version), wheels)
  {
    r := Classify(listing, KindIn(dir, version));
  }

  // ---------------------------------------------------------------- the manifest

  const MANIFEST_SCHEMA := "nokv.python_sdk.release.v1"

  datatype Item = Item(file: string, digest: string, size: nat)

  /** A manifest as it is loaded: it may lack its schema, and name platforms there are not. */
  datatype Manifest = Manifest(schema: Option<string>, version: string, wheels: map<string, Item>)

  function NameOf(p: Platform): (name: string)
  {
    match p
    case LinuxX86 => "linux-x86_64"
    case LinuxArm => "linux-aarch64"
    case MacArm => "macos-arm64"
    case MacX86 => "macos-x86_64"
  }

  const NAMES: set<string> := {NameOf(LinuxX86), NameOf(LinuxArm), NameOf(MacArm), NameOf(MacX86)}

  function Named(name: string): (p: Option<Platform>)
  {
    if name == NameOf(LinuxX86) then Some(LinuxX86)
    else if name == NameOf(LinuxArm) then Some(LinuxArm)
    else if name == NameOf(MacArm) then Some(MacArm)
    else if name == NameOf(MacX86) then Some(MacX86)
    else None
  }

  lemma NamesDiffer(p: Platform)
    ensures Named(NameOf(p)) == Some(p) && NameOf(p) in NAMES
  {
    assert |NameOf(LinuxX86)| == 12 && |NameOf(LinuxArm)| == 13 && |NameOf(MacArm)| == 11 && |NameOf(MacX86)| == 12;
    assert NameOf(LinuxX86)[0] == 'l' && NameOf(MacX86)[0] == 'm';
    match p { case LinuxX86 => case LinuxArm => case MacArm => case MacX86 => }
  }

  /** The bytes of a file. */
  function Contents(dir: Directory, name: string): (bytes: seq<byte>)
  {
    if name in dir && dir[name].Some? then dir[name].value else []
  }

  function ItemOf(dir: Directory, file: string, sha: seq<byte> -> string): (item: Item)
  {
    Item(file, sha(Contents(dir, file)), |Contents(dir, file)|)
  }

  function BuildManifest(version: string, dir: Directory, wheels: map<Platform, string>, sha: seq<byte> -> string)
    : (m: Manifest)
  {
    Manifest(Some(MANIFEST_SCHEMA), version,
             map name | name in NAMES && Named(name).Some? && Named(name).value in wheels ::
               ItemOf(dir, wheels[Named(name).value], sha))
  }

  /** The manifest's file and digest under a name are those of a wheel in the directory. */
  predicate Agrees(m: Manifest, name: string, dir: Directory, wheels: map<Platform, string>, sha: seq<byte> -> string)
    requires name in m.wheels
  {
    && Named(name).Some? && Named(name).value in wheels
    && var file := wheels[Named(name).value];
    file == m.wheels[name].file && sha(Contents(dir, file)) == m.wheels[name].digest
  }

  /** The directory is a wheel set that has all the manifest names. */
  ghost predicate Verifies(m: Manifest, dir: Directory, found: map<Platform, string>, sha: seq<byte> -> string) {
    && IsWheelSet(dir.Keys, KindIn(dir, m.version), found)
    && forall name :: name in m.wheels ==> Agrees(m, name, dir, found, sha)
  }

  /** Verifies just when the schema is right and the directory is a wheel set that has each wheel the
      manifest names, under a platform there is, with its file name and digest. */
  method VerifyManifest(m: Manifest, dir: Directory, listing: seq<string>, sha: seq<byte> -> string) returns (ok: bool)
    requires dir.Keys == Names(listing)
    requires forall i, j :: 0 <= i < j < |listing| ==> listing[i] != listing[j]
    ensures ok <==> m.schema == Some(MANIFEST_SCHEMA) && exists wheels :: Verifies(m, dir, wheels, sha)
  {
    if m.schema != Some(MANIFEST_SCHEMA) {
      return false;
    }
    var found := ClassifyWheels(dir, listing, m.version);
    if found.None? {
      return false;
    }
    ghost var kind := KindIn(dir, m.version);
    forall wheels | IsWheelSet(dir.Keys, kind, wheels) ensures wheels == found.value {
      WheelSetIsUnique(dir.Keys, kind, wheels, found.value);
    }
    var left := m.wheels.Keys;
    while left != {}
      invariant left <= m.wheels.Keys
      invariant forall name :: name in m.wheels && name !in left ==> Agrees(m, name, dir, found.value, sha)
      decreases |left|
    {
      var name :| name in left;
      if !Agrees(m, name, dir, found.value, sha) {
        return false;
      }
      left := left - {name};
    }
    assert Verifies(m, dir, found.value, sha);
    return true;
  }

  /** What a release sees of a directory. */
  ghost function Visible(dir: Directory): (files: Directory)
  {
    map name | name in dir && IsVisible(name) :: dir[name]
  }

  lemma KindIsFile(dir: Directory, version: string, name: string)
    requires KindIn(dir, version)(name).Some?
    ensures name in dir && dir[name].Some?
  {
  }

  lemma SameKind(a: Directory, b: Directory, version: string, name: string)
    requires name in a && name in b && a[name] == b[name]
    ensures KindIn(a, version)(name) == KindIn(b, version)(name)
  {
  }

  lemma ItemInManifest(
      version: string, dir: Directory, wheels: map<Platform, string>, sha: seq<byte> -> string, p: Platform)
    requires p in wheels
    ensures var m := BuildManifest(version, dir, wheels, sha);
            NameOf(p) in m.wheels && m.wheels[NameOf(p)] == ItemOf(dir, wheels[p], sha)
  {
    NamesDiffer(p);
  }

  /** A manifest built from a directory agrees with another one, for a digest without collisions, just when
      both show the same files. */
  lemma ManifestPinsTheFiles(
      version: string, a: Directory, wheels: map<Platform, string>, b: Directory, sha: seq<byte> -> string)
    requires IsWheelSet(a.Keys, KindIn(a, version), wheels)
    requires forall x: seq<byte>, y: seq<byte> :: sha(x) == sha(y) ==> x == y
    ensures Visible(a) == Visible(b)
            <==> exists found :: Verifies(BuildManifest(version, a, wheels, sha), b, found, sha)
  {
    var m := BuildManifest(version, a, wheels, sha);
    if Visible(a) == Visible(b) {
      SameVisible(version, a, wheels, b);
      forall name | name in m.wheels ensures Agrees(m, name, b, wheels, sha) {
        SameContents(a, b, wheels[Named(name).value]);
      }
      assert Verifies(m, b, wheels, sha);
    }
    if found :| Verifies(m, b, found, sha) {
      forall p | p in wheels ensures p in found && found[p] == wheels[p] && a[wheels[p]] == b[wheels[p]] {
        AgreedFile(version, a, wheels, b, found, sha, p);
      }
      AgreementIsEquality(KindIn(a, version), a, wheels, KindIn(b, version), b, found);
    }
  }

  lemma SameContents(a: Directory, b: Directory, name: string)
    requires Visible(a) == Visible(b) && IsVisible(name)
    ensures Contents(a, name) == Contents(b, name)
  {
    assert name in Visible(a) <==> name in Visible(b);
    if name in Visible(a) { assert Visible(a)[name] == Visible(b)[name]; }
  }

  lemma AgreedFile(version: string, a: Directory, wheels: map<Platform, string>, b: Directory,
                   found: map<Platform, string>, sha: seq<byte> -> string, p: Platform)
    requires IsWheelSet(a.Keys, KindIn(a, version), wheels) && p in wheels
    requires Verifies(BuildManifest(version, a, wheels, sha), b, found, sha)
    requires forall x: seq<byte>, y: seq<byte> :: sha(x) == sha(y) ==> x == y
    ensures p in found && found[p] == wheels[p] && wheels[p] in a && wheels[p] in b && a[wheels[p]] == b[wheels[p]]
  {
    ItemInManifest(version, a, wheels, sha, p);
    NamesDiffer(p);
    assert Agrees(BuildManifest(version, a, wheels, sha), NameOf(p), b, found, sha);
    KindIsFile(a, version, wheels[p]);
    KindIsFile(b, version, found[p]);
  }

  lemma SameVisible(version: string, a: Directory, wheels: map<Platform, string>, b: Directory)
    requires IsWheelSet(a.Keys, KindIn(a, version), wheels) && Visible(a) == Visible(b)
    ensures IsWheelSet(b.Keys, KindIn(b, version), wheels)
  {
    forall name | IsVisible(name) ensures name in a <==> name in b {
      assert name in Visible(a) <==> name in Visible(b);
    }
    forall name | name in b && IsVisible(name)
      ensures a[name] == b[name] && KindIn(a, version)(name) == KindIn(b, version)(name)
    {
      assert Visible(a)[name] == Visible(b)[name];
      SameKind(a, b, version, name);
    }
  }

  lemma AgreementIsEquality(
      ka: Kind, a: Directory, wheels: map<Platform, string>, kb: Kind, b: Directory, found: map<Platform, string>)
    requires IsWheelSet(a.Keys, ka, wheels) && IsWheelSet(b.Keys, kb, found)
    requires forall p :: p in wheels ==> p in found && found[p] == wheels[p] && a[wheels[p]] == b[wheels[p]]
    ensures Visible(a) == Visible(b)
  {
    forall name | name in Visible(a) ensures name in Visible(b) && Visible(a)[name] == Visible(b)[name] {
      assert wheels[ka(name).value] == name;
    }
    forall name | name in Visible(b) ensures name in Visible(a) {
      assert found[kb(name).value] == name && kb(name).value in wheels;
    }
  }
}
