/** The image metadata step outputs: two here-documents of `key=value` lines, and their reader. */
module StepOutputs {
  import opened Lines
  import opened Optional

  datatype Pair = Pair(key: string, value: string)

  const PREFIX := "index,manifest:"

  // ---------------------------------------------------------------- the writer

  predicate CanCarry(p: Pair) {
    '\n' !in p.value && '=' !in p.key
  }

  function Entry(prefix: string, p: Pair): (line: string)
  {
    prefix + p.key + "=" + p.value
  }

  function Joined(prefix: string, pairs: seq<Pair>): (text: string)
  {
    if pairs == [] then ""
    else if |pairs| == 1 then Entry(prefix, pairs[0])
    else Entry(prefix, pairs[0]) + "\n" + Joined(prefix, pairs[1..])
  }

  /** A here-document with its name, followed by `rest`. */
  function Document(name: string, body: string, rest: string): (text: string)
  {
    (name + "<<EOF") + "\n" + (body + "\n" + ("EOF" + "\n" + rest))
  }

  /** None where the original raises. */
  function GithubOutputs(values: seq<Pair>): (text: Option<string>)
  {
    if exists i :: 0 <= i < |values| && !CanCarry(values[i]) then None
    else Some(Document("labels", Joined("", values), Document("annotations", Joined(PREFIX, values), "")))
  }

  // ---------------------------------------------------------------- the reader

  /** The lines of a here-document, up to the line that ends it, and what follows. */
  function Block(lines: seq<string>): (r: Option<(seq<string>, seq<string>)>)
  {
    if lines == [] then None
    else if lines[0] == "EOF" then Some(([], lines[1..]))
    else
      match Block(lines[1..])
      case None => None
      case Some((block, rest)) => Some(([lines[0]] + block, rest))
  }

  /** A line split at its first equals sign, after the prefix. */
  function ReadPair(prefix: string, line: string): (p: Option<Pair>)
  {
    if !(prefix <= line) then None else SplitFirst(line[|prefix|..])
  }

  function SplitFirst(text: string): (p: Option<Pair>)
  {
    if text == "" then None
    else if text[0] == '=' then Some(Pair("", text[1..]))
    else
      match SplitFirst(text[1..])
      case None => None
      case Some(Pair(key, value)) => Some(Pair([text[0]] + key, value))
  }

  function ReadPairs(prefix: string, lines: seq<string>): (r: Option<seq<Pair>>)
  {
    if lines == [] then Some([])
    else
      match ReadPair(prefix, lines[0])
      case None => None
      case Some(p) =>
        match ReadPairs(prefix, lines[1..])
        case None => None
        case Some(rest) => Some([p] + rest)
  }

  function ReadOutput(name: string, prefix: string, lines: seq<string>): (r: Option<(seq<Pair>, seq<string>)>)
  {
    if lines == [] || lines[0] != name + "<<EOF" then None
    else
      match Block(lines[1..])
      case None => None
      case Some((block, rest)) =>
        match ReadPairs(prefix, block)
        case None => None
        case Some(pairs) => Some((pairs, rest))
  }

  /** Both outputs of a step, labels first. */
  function ReadOutputs(text: string): (r: Option<(seq<Pair>, seq<Pair>)>)
  {
    match ReadOutput("labels", "", Pieces(text))
    case None => None
    case Some((labels, rest)) =>
      match ReadOutput("annotations", PREFIX, rest)
      case None => None
      case Some((annotations, _)) => Some((labels, annotations))
  }

  // ---------------------------------------------------------------- reading back

  lemma {:induction false} SplitKey(key: string, value: string)
    requires '=' !in key
    ensures SplitFirst(key + "=" + value) == Some(Pair(key, value))
  {
    var text := key + "=" + value;
    if key == "" {
      assert text[1..] == value;
    } else {
      assert text[1..] == key[1..] + "=" + value;
      SplitKey(key[1..], value);
      assert [key[0]] + key[1..] == key;
    }
  }

  lemma ReadsEntry(prefix: string, p: Pair)
    requires '=' !in p.key
    ensures ReadPair(prefix, Entry(prefix, p)) == Some(p)
  {
    var line := Entry(prefix, p);
    assert line == prefix + (p.key + "=" + p.value);
    assert line[|prefix|..] == p.key + "=" + p.value;
    SplitKey(p.key, p.value);
  }

  ghost function Entries(prefix: string, pairs: seq<Pair>): (lines: seq<string>)
  {
    if pairs == [] then [] else [Entry(prefix, pairs[0])] + Entries(prefix, pairs[1..])
  }

  ghost predicate IsPlain(p: Pair) {
    CanCarry(p) && '\n' !in p.key
  }

  ghost predicate ArePlain(pairs: seq<Pair>) {
    forall i :: 0 <= i < |pairs| ==> IsPlain(pairs[i])
  }

  lemma EntryIsLine(prefix: string, p: Pair)
    requires IsPlain(p) && '\n' !in prefix
    ensures Pieces(Entry(prefix, p)) == [Entry(prefix, p)] && Entry(prefix, p) != "EOF"
  {
    PiecesOfLine(Entry(prefix, p));
    assert Entry(prefix, p)[|prefix| + |p.key|] == '=';
    assert '=' in Entry(prefix, p) && '=' !in "EOF";
  }

  lemma {:induction false} JoinedPieces(prefix: string, pairs: seq<Pair>)
    requires pairs != [] && ArePlain(pairs) && '\n' !in prefix
    ensures Pieces(Joined(prefix, pairs)) == Entries(prefix, pairs)
  {
    EntryIsLine(prefix, pairs[0]);
    if |pairs| > 1 {
      PiecesConcat(Entry(prefix, pairs[0]), Joined(prefix, pairs[1..]));
      JoinedPieces(prefix, pairs[1..]);
    } else {
      assert Entries(prefix, pairs[1..]) == [];
    }
  }

  lemma {:induction false} BlockOfEntries(prefix: string, pairs: seq<Pair>, rest: seq<string>)
    requires ArePlain(pairs) && '\n' !in prefix
    ensures Block(Entries(prefix, pairs) + ["EOF"] + rest) == Some((Entries(prefix, pairs), rest))
  {
    var lines := Entries(prefix, pairs) + ["EOF"] + rest;
    if pairs == [] {
      assert lines[1..] == rest;
    } else {
      EntryIsLine(prefix, pairs[0]);
      assert lines[1..] == Entries(prefix, pairs[1..]) + ["EOF"] + rest;
      BlockOfEntries(prefix, pairs[1..], rest);
    }
  }

  lemma {:induction false} ReadsEntries(prefix: string, pairs: seq<Pair>)
    requires ArePlain(pairs)
    ensures ReadPairs(prefix, Entries(prefix, pairs)) == Some(pairs)
  {
    if pairs != [] {
      ReadsEntry(prefix, pairs[0]);
      ReadsEntries(prefix, pairs[1..]);
      assert [pairs[0]] + pairs[1..] == pairs;
    }
  }

  lemma ReadsOutput(name: string, prefix: string, pairs: seq<Pair>, rest: seq<string>)
    requires ArePlain(pairs) && '\n' !in prefix
    ensures ReadOutput(name, prefix, [name + "<<EOF"] + (Entries(prefix, pairs) + ["EOF"] + rest))
            == Some((pairs, rest))
  {
    BlockOfEntries(prefix, pairs, rest);
    ReadsEntries(prefix, pairs);
  }

  /** The lines of a here-document. */
  lemma DocumentPieces(name: string, body: string, rest: string)
    requires '\n' !in name
    ensures Pieces(Document(name, body, rest)) == [name + "<<EOF"] + (Pieces(body) + (["EOF"] + Pieces(rest)))
  {
    PiecesOfLine(name + "<<EOF");
    PiecesOfLine("EOF");
    PiecesConcat("EOF", rest);
    PiecesConcat(body, "EOF" + "\n" + rest);
    PiecesConcat(name + "<<EOF", body + "\n" + ("EOF" + "\n" + rest));
  }

  /** A plain here-document is read back, and the rest of the lines is left. */
  lemma ReadsDocument(name: string, prefix: string, values: seq<Pair>, rest: string)
    requires values != [] && ArePlain(values) && '\n' !in name && '\n' !in prefix
    ensures ReadOutput(name, prefix, Pieces(Document(name, Joined(prefix, values), rest)))
            == Some((values, Pieces(rest)))
  {
    DocumentPieces(name, Joined(prefix, values), rest);
    JoinedPieces(prefix, values);
    ReadsOutput(name, prefix, values, Pieces(rest));
    assert Entries(prefix, values) + ["EOF"] + Pieces(rest) == Entries(prefix, values) + (["EOF"] + Pieces(rest));
  }

  lemma ReadsBoth(values: seq<Pair>)
    requires values != [] && ArePlain(values)
    ensures GithubOutputs(values).Some? && ReadOutputs(GithubOutputs(values).value) == Some((values, values))
  {
    forall i | 0 <= i < |values| ensures CanCarry(values[i]) { assert IsPlain(values[i]); }
    ReadsDocument("labels", "", values, Document("annotations", Joined(PREFIX, values), ""));
    ReadsDocument("annotations", PREFIX, values, "");
  }

  // ---------------------------------------------------------------- what cannot be read back

  lemma {:induction false} SplitHasNoBreaks(text: string)
    requires '\n' !in text && SplitFirst(text).Some?
    ensures '\n' !in SplitFirst(text).value.key
  {
    if text[0] != '=' { SplitHasNoBreaks(text[1..]); }
  }

  lemma {:induction false} PairsHaveNoBreaks(prefix: string, lines: seq<string>)
    requires (forall i :: 0 <= i < |lines| ==> '\n' !in lines[i]) && ReadPairs(prefix, lines).Some?
    ensures var pairs := ReadPairs(prefix, lines).value; forall i :: 0 <= i < |pairs| ==> '\n' !in pairs[i].key
  {
    if lines != [] {
      SplitHasNoBreaks(lines[0][|prefix|..]);
      PairsHaveNoBreaks(prefix, lines[1..]);
    }
  }

  lemma {:induction false} BlockIsPrefix(lines: seq<string>)
    requires Block(lines).Some?
    ensures Block(lines).value.0 + ["EOF"] + Block(lines).value.1 == lines
  {
    if lines[0] != "EOF" {
      BlockIsPrefix(lines[1..]);
      assert lines == [lines[0]] + lines[1..];
    }
  }

  /** Whatever is read, no key has a line feed. */
  lemma ReadKeysHaveNoBreaks(text: string)
    requires ReadOutputs(text).Some?
    ensures var labels := ReadOutputs(text).value.0; forall i :: 0 <= i < |labels| ==> '\n' !in labels[i].key
  {
    var lines := Pieces(text);
    PiecesHaveNoBreaks(text);
    var block := Block(lines[1..]).value.0;
    BlockIsPrefix(lines[1..]);
    forall i | 0 <= i < |block| ensures '\n' !in block[i] { assert block[i] == lines[i + 1]; }
    PairsHaveNoBreaks("", block);
  }

  /** An empty mapping is written as one empty line, which is no pair. */
  lemma EmptyIsUnreadable()
    ensures GithubOutputs([]).Some? && ReadOutputs(GithubOutputs([]).value).None?
  {
    var rest := Document("annotations", "", "");
    DocumentPieces("labels", "", rest);
    var lines := [""] + (["EOF"] + Pieces(rest));
    assert lines[1..] == ["EOF"] + Pieces(rest);
    assert Block(lines[1..]).Some? && Block(lines).value.0[0] == "";
    assert ReadPair("", "").None?;
  }

  /** The reader recovers every pair of both outputs exactly when there is a pair and no key has a line feed. */
  lemma RecoversExactlyPlainPairs(values: seq<Pair>)
    requires GithubOutputs(values).Some?
    ensures ReadOutputs(GithubOutputs(values).value) == Some((values, values))
            <==> values != [] && forall i :: 0 <= i < |values| ==> '\n' !in values[i].key
  {
    if values == [] {
      EmptyIsUnreadable();
    } else if forall i :: 0 <= i < |values| ==> '\n' !in values[i].key {
      ReadsBoth(values);
    } else if ReadOutputs(GithubOutputs(values).value).Some? {
      ReadKeysHaveNoBreaks(GithubOutputs(values).value);
    }
  }
}
